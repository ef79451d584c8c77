/** The shard balancer: units from the longest down, placed where the resulting wall time is least. */
module Shards {
  import opened Names
  import opened Results

  // ---------------------------------------------------------------- measures

  /** Every listed unit is in the table. */
  predicate Known(us: seq<string>, measure: map<string, nat>) {
    forall u <- us :: u in measure
  }

  lemma KnownAppend(us: seq<string>, u: string, measure: map<string, nat>)
    requires Known(us, measure) && u in measure
    ensures Known(us + [u], measure)
  {
  }

  /** A measure's value at a unit; units it leaves out count nothing. */
  function At(measure: map<string, nat>, u: string): nat {
    if u in measure then measure[u] else 0
  }

  /** The sum of a measure over a list of units. Loads, file loads and weights are all totals. */
  function Total(measure: map<string, nat>, us: seq<string>): nat {
    if us == [] then 0 else Total(measure, us[..|us| - 1]) + At(measure, us[|us| - 1])
  }

  /** The file of a unit: what stands before its last colon, or the whole name without one. */
  function File(unit: string): string {
    if ':' !in unit then unit
    else if unit[|unit| - 1] == ':' then unit[..|unit| - 1]
    else File(unit[..|unit| - 1])
  }

  /** Whatever its folders are called, a file is all of a unit before the last colon. */
  lemma {:induction false} FileIs(file: string, line: string)
    requires ':' !in line
    ensures File(file + ":" + line) == file
  {
    var unit := file + ":" + line;
    if line == [] {
      assert unit[|unit| - 1] == ':' && unit[..|unit| - 1] == file;
    } else {
      var init := line[..|line| - 1];
      assert unit[|unit| - 1] == line[|line| - 1] && unit[|unit| - 1] != ':';
      assert unit[..|unit| - 1] == file + ":" + init;
      assert unit[|file|] == ':';
      FileIs(file, init);
    }
  }

  /** The units' seconds, counting only those of one file. */
  function OnFile(units: map<string, nat>, file: string): map<string, nat> {
    map u | u in units :: if File(u) == file then units[u] else 0
  }

  function Max(a: int, b: int): int { if a < b then b else a }

  function MaxReal(a: real, b: real): real { if a < b then b else a }

  /** What the units of one file take. */
  function FileTotal(units: map<string, nat>, us: seq<string>, file: string): nat
  {
    Total(OnFile(units, file), us)
  }

  /** The seconds of the file that takes longest among these units; zero without units. */
  function LongestFile(units: map<string, nat>, us: seq<string>): nat
  {
    if us == [] then 0
    else
      Max(LongestFile(units, us[..|us| - 1]), FileTotal(units, us, File(us[|us| - 1])))
  }

  /** Expected wall time: the workers' even share, or the longest file, which no two workers split. */
  function Seconds(units: map<string, nat>, us: seq<string>, workers: nat): real
    requires workers >= 1
  {
    MaxReal(Total(units, us) as real / workers as real, LongestFile(units, us) as real)
  }

  lemma {:induction false} TotalAppend(measure: map<string, nat>, us: seq<string>, u: string)
    ensures Total(measure, us + [u]) == Total(measure, us) + At(measure, u)
  {
    assert (us + [u])[..|us|] == us;
  }

  lemma {:induction false} TotalMonotone(small: map<string, nat>, large: map<string, nat>, us: seq<string>)
    requires forall u :: At(small, u) <= At(large, u)
    ensures Total(small, us) <= Total(large, us)
  {
    if us != [] {
      TotalMonotone(small, large, us[..|us| - 1]);
    }
  }

  lemma {:induction false} TotalPrefix(measure: map<string, nat>, us: seq<string>, n: nat)
    requires n <= |us|
    ensures Total(measure, us[..n]) <= Total(measure, us)
  {
    if n < |us| {
      TotalPrefix(measure, us[..|us| - 1], n);
      assert us[..|us| - 1][..n] == us[..n];
    } else {
      assert us[..n] == us;
    }
  }

  lemma FileTotalAppend(units: map<string, nat>, us: seq<string>, u: string, file: string)
    ensures FileTotal(units, us + [u], file)
         == FileTotal(units, us, file) + (if File(u) == file then At(units, u) else 0)
  {
    TotalAppend(OnFile(units, file), us, u);
  }

  lemma FileTotalPrefix(units: map<string, nat>, us: seq<string>, n: nat, file: string)
    requires n <= |us|
    ensures FileTotal(units, us[..n], file) <= FileTotal(units, us, file)
  {
    TotalPrefix(OnFile(units, file), us, n);
  }

  /** LongestFile bounds every file's total, */
  lemma {:induction false} LongestFileBounds(units: map<string, nat>, us: seq<string>, file: string)
    ensures FileTotal(units, us, file) <= LongestFile(units, us)
  {
    if us != [] {
      var init, last := us[..|us| - 1], us[|us| - 1];
      assert us == init + [last];
      LongestFileBounds(units, init, file);
      FileTotalAppend(units, init, last, file);
    }
  }

  /** and is the total of one of the files: it is the maximum. */
  lemma {:induction false} LongestFileIsAttained(units: map<string, nat>, us: seq<string>) returns (u: string)
    requires us != []
    ensures u in us && FileTotal(units, us, File(u)) == LongestFile(units, us)
  {
    var init, last := us[..|us| - 1], us[|us| - 1];
    assert us == init + [last];
    u := last;
    if init != [] && LongestFile(units, us) != FileTotal(units, us, File(last)) {
      u := LongestFileIsAttained(units, init);
      FileTotalAppend(units, init, last, File(u));
      LongestFileBounds(units, us, File(u));
    }
  }

  lemma LongestFileWithinTotal(units: map<string, nat>, us: seq<string>)
    ensures LongestFile(units, us) <= Total(units, us)
  {
    if us != [] {
      var u := LongestFileIsAttained(units, us);
      TotalMonotone(OnFile(units, File(u)), units, us);
    }
  }

  /** With one worker the wall time is the plain sum. */
  lemma OneWorkerSums(units: map<string, nat>, us: seq<string>)
    ensures Seconds(units, us, 1) == Total(units, us) as real
  {
    LongestFileWithinTotal(units, us);
  }

  // ---------------------------------------------------------------- accumulating a shard's files

  /** What the units of some files take together. */
  ghost function FilesTotal(units: map<string, nat>, us: seq<string>, files: set<string>): nat
  {
    if us == [] then 0
    else
      var u := us[|us| - 1];
      FilesTotal(units, us[..|us| - 1], files) + (if File(u) in files then At(units, u) else 0)
  }

  lemma {:induction false} FilesTotalAdd(units: map<string, nat>, us: seq<string>, files: set<string>, file: string)
    requires file !in files
    ensures FilesTotal(units, us, files + {file}) == FilesTotal(units, us, files) + FileTotal(units, us, file)
  {
    if us != [] {
      FilesTotalAdd(units, us[..|us| - 1], files, file);
    }
  }

  lemma {:induction false} FilesTotalAll(units: map<string, nat>, us: seq<string>, files: set<string>)
    requires forall u <- us :: File(u) in files
    ensures FilesTotal(units, us, files) == Total(units, us)
  {
    if us != [] {
      FilesTotalAll(units, us[..|us| - 1], files);
    }
  }

  lemma {:induction false} FilesTotalNone(units: map<string, nat>, us: seq<string>)
    ensures FilesTotal(units, us, {}) == 0
  {
    if us != [] {
      FilesTotalNone(units, us[..|us| - 1]);
    }
  }

  /** A table of files lists each unit's file and gives every file its total. */
  ghost predicate FilesOf(units: map<string, nat>, us: seq<string>, files: map<string, nat>) {
    && (forall u <- us :: File(u) in files)
    && (forall f :: At(files, f) == FileTotal(units, us, f))
  }

  lemma FilesOfAppend(units: map<string, nat>, us: seq<string>, u: string, files: map<string, nat>)
    requires FilesOf(units, us, files)
    ensures FilesOf(units, us + [u], files[File(u) := At(files, File(u)) + At(units, u)])
  {
    hide File, FileTotal;
    var more := files[File(u) := At(files, File(u)) + At(units, u)];
    forall f
      ensures At(more, f) == FileTotal(units, us + [u], f)
    {
      FileTotalAppend(units, us, u, f);
      assert At(files, f) == FileTotal(units, us, f);
    }
  }

  /** The seconds a shard spends in each of its files. */
  method FileSeconds(units: map<string, nat>, picked: seq<string>) returns (files: map<string, nat>)
    requires Known(picked, units)
    ensures FilesOf(units, picked, files)
  {
    files := map[];
    for n := 0 to |picked|
      invariant FilesOf(units, picked[..n], files)
    {
      hide FilesOf;
      var file := File(picked[n]);
      FilesOfAppend(units, picked[..n], picked[n], files);
      assert picked[..n + 1] == picked[..n] + [picked[n]];
      files := files[file := At(files, file) + units[picked[n]]];
    }
    assert picked[..|picked|] == picked;
  }

  /** The sum and the maximum of the seconds per file. */
  method SumAndMax(ghost units: map<string, nat>, ghost picked: seq<string>, files: map<string, nat>)
      returns (total: nat, longest: nat, ghost longestFile: string)
    requires FilesOf(units, picked, files)
    ensures total == Total(units, picked)
    ensures forall f <- files :: files[f] <= longest
    ensures longest == 0 || (longestFile in files && files[longestFile] == longest)
  {
    total, longest, longestFile := 0, 0, "";
    var todo := files.Keys;
    FilesTotalNone(units, picked);
    assert files.Keys - todo == {};
    while todo != {}
      invariant todo <= files.Keys
      invariant total == FilesTotal(units, picked, files.Keys - todo)
      invariant forall f <- files.Keys - todo :: files[f] <= longest
      invariant longest == 0 || (longestFile in files && files[longestFile] == longest)
      decreases |todo|
    {
      var file :| file in todo;
      FilesTotalAdd(units, picked, files.Keys - todo, file);
      assert files.Keys - (todo - {file}) == files.Keys - todo + {file};
      total := total + files[file];
      if longest < files[file] {
        longest, longestFile := files[file], file;
      }
      todo := todo - {file};
    }
    FilesTotalAll(units, picked, files.Keys - todo);
  }

  /** The maximum of the table is the longest file's total. */
  lemma LongestOfFiles(
      units: map<string, nat>, picked: seq<string>, files: map<string, nat>, longest: nat, longestFile: string)
    requires FilesOf(units, picked, files)
    requires forall f <- files :: files[f] <= longest
    requires longest == 0 || (longestFile in files && files[longestFile] == longest)
    ensures longest == LongestFile(units, picked)
  {
    hide FileTotal, LongestFile, File;
    assert At(files, longestFile) == FileTotal(units, picked, longestFile);
    LongestFileBounds(units, picked, longestFile);
    if picked != [] {
      var u := LongestFileIsAttained(units, picked);
      assert At(files, File(u)) == FileTotal(units, picked, File(u));
    } else {
      NoLongestFile(units);
    }
  }

  lemma NoLongestFile(units: map<string, nat>)
    ensures LongestFile(units, []) == 0
  {
  }

  /** A shard's wall time, from the seconds accumulated per file. */
  method ShardSeconds(units: map<string, nat>, picked: seq<string>, workers: nat) returns (seconds: real)
    requires Known(picked, units)
    requires workers >= 1
    ensures seconds == Seconds(units, picked, workers)
  {
    var files := FileSeconds(units, picked);
    var total, longest, longestFile := SumAndMax(units, picked, files);
    LongestOfFiles(units, picked, files, longest, longestFile);
    seconds := MaxReal(total as real / workers as real, longest as real);
  }

  // ---------------------------------------------------------------- longest first

  /** Longer units first, equal ones by name. */
  predicate Before(units: map<string, nat>, a: string, b: string)
    requires a in units && b in units
  {
    units[a] > units[b] || (units[a] == units[b] && NameLess(a, b))
  }

  lemma BeforeTransitive(units: map<string, nat>, a: string, b: string, c: string)
    requires a in units && b in units && c in units
    requires Before(units, a, b) && Before(units, b, c)
    ensures Before(units, a, c)
  {
    if NameLess(a, b) && NameLess(b, c) {
      NameLessTransitive(a, b, c);
    }
  }

  /** The order in which units are placed: every unit of the table once, longest first. */
  ghost predicate Ordered(units: map<string, nat>, order: seq<string>) {
    && (forall u :: u in order <==> u in units)
    && (forall i, j :: 0 <= i < j < |order| ==> Before(units, order[i], order[j]))
  }

  /** Only one order is possible, so the order of the input table cannot matter. */
  lemma {:induction false} OrderedIsUnique(units: map<string, nat>, a: seq<string>, b: seq<string>)
    requires Ordered(units, a) && Ordered(units, b)
    ensures a == b
  {
    OrderedDistinct(units, a);
    OrderedDistinct(units, b);
    assert b != [] ==> b[0] in a;
    if a != [] {
      assert a[0] in units && a[0] in b;
      assert b[0] in units && b[0] in a;
      assert a[0] == b[0] by {
        if a[0] != b[0] {
          NameLessTotal(a[0], b[0]);
        }
      }
      OrderedTail(units, a);
      OrderedTail(units, b);
      OrderedIsUnique(units - {a[0]}, a[1..], b[1..]);
      assert a == [a[0]] + a[1..] && b == [b[0]] + b[1..];
    }
  }

  lemma OrderedTail(units: map<string, nat>, order: seq<string>)
    requires Ordered(units, order) && order != []
    ensures Ordered(units - {order[0]}, order[1..])
  {
    OrderedDistinct(units, order);
    forall u
      ensures u in order[1..] <==> u in units - {order[0]}
    {
      assert order == [order[0]] + order[1..];
    }
  }

  lemma OrderedDistinct(units: map<string, nat>, order: seq<string>)
    requires Ordered(units, order)
    ensures forall i, j :: 0 <= i < j < |order| ==> order[i] != order[j]
  {
    forall i, j | 0 <= i < j < |order|
      ensures order[i] != order[j]
    {
      assert Before(units, order[i], order[j]);
      NameLessTotal(order[i], order[j]);
    }
  }

  method SortUnits(units: map<string, nat>) returns (order: seq<string>)
    ensures Ordered(units, order)
  {
    var todo := units.Keys;
    order := [];
    while todo != {}
      invariant todo <= units.Keys
      invariant forall u :: u in order <==> u in units && u !in todo
      invariant forall i, j :: 0 <= i < j < |order| ==> Before(units, order[i], order[j])
      decreases |todo|
    {
      var u :| u in todo;
      var k := 0;
      while k < |order| && Before(units, order[k], u)
        invariant k <= |order|
        invariant forall i :: 0 <= i < k ==> Before(units, order[i], u)
      {
        k := k + 1;
      }
      forall i | k <= i < |order|
        ensures Before(units, u, order[i])
      {
        assert order[k] in order;
        NameLessTotal(order[k], u);
        if k < i {
          BeforeTransitive(units, u, order[k], order[i]);
        }
      }
      var next := order[..k] + [u] + order[k..];
      forall v
        ensures v in next <==> v in units && v !in todo - {u}
      {
        assert order == order[..k] + order[k..];
      }
      order := next;
      todo := todo - {u};
    }
  }

  // ---------------------------------------------------------------- the greedy assignment

  /** Wall times the shards would have with one more unit. */
  function Times(units: map<string, nat>, picked: seq<seq<string>>, unit: string, workers: nat): (ts: seq<real>)
    requires workers >= 1
    ensures |ts| == |picked|
    ensures forall i :: 0 <= i < |ts| ==> ts[i] == Seconds(units, picked[i] + [unit], workers)
  {
    seq(|picked|, i requires 0 <= i < |picked| => Seconds(units, picked[i] + [unit], workers))
  }

  /** The first of the least entries. */
  function Least(ts: seq<real>): (k: nat)
    requires ts != []
    ensures k < |ts|
    ensures forall i :: 0 <= i < |ts| ==> ts[k] <= ts[i]
    ensures forall i :: 0 <= i < k ==> ts[k] < ts[i]
  {
    if |ts| == 1 then 0
    else
      var k := Least(ts[..|ts| - 1]);
      if ts[|ts| - 1] < ts[k] then |ts| - 1 else k
  }

  /** The shard that takes a unit: the first whose wall time would be least with it. */
  function Chosen(units: map<string, nat>, picked: seq<seq<string>>, unit: string, workers: nat): (best: nat)
    requires workers >= 1 && picked != []
    ensures best < |picked|
  {
    Least(Times(units, picked, unit, workers))
  }

  lemma ChosenIsLeast(units: map<string, nat>, picked: seq<seq<string>>, unit: string, workers: nat)
    requires workers >= 1 && picked != []
    ensures var best := Chosen(units, picked, unit, workers);
            && (forall s :: 0 <= s < |picked| ==>
                  Seconds(units, picked[best] + [unit], workers) <= Seconds(units, picked[s] + [unit], workers))
            && (forall s :: 0 <= s < best ==>
                  Seconds(units, picked[best] + [unit], workers) < Seconds(units, picked[s] + [unit], workers))
  {
    var ts := Times(units, picked, unit, workers);
    assert forall s :: 0 <= s < |picked| ==> ts[Least(ts)] <= ts[s];
    assert forall s :: 0 <= s < Least(ts) ==> ts[Least(ts)] < ts[s];
  }

  /** The shards after placing the units of an order, one by one. */
  function Placed(units: map<string, nat>, order: seq<string>, shards: nat, workers: nat): (picked: seq<seq<string>>)
    requires workers >= 1 && shards >= 1
    ensures |picked| == shards
    decreases |order|
  {
    if order == [] then seq(shards, _ => [])
    else
      var n := |order| - 1;
      var before := Placed(units, order[..n], shards, workers);
      var best := Chosen(units, before, order[n], workers);
      before[best := before[best] + [order[n]]]
  }

  lemma PlacedStep(units: map<string, nat>, order: seq<string>, n: nat, shards: nat, workers: nat)
    requires workers >= 1 && shards >= 1 && n < |order|
    ensures var before := Placed(units, order[..n], shards, workers);
            var best := Chosen(units, before, order[n], workers);
            Placed(units, order[..n + 1], shards, workers) == before[best := before[best] + [order[n]]]
  {
    assert order[..n + 1][..n] == order[..n];
  }

  lemma {:induction false} PlacedKnown(units: map<string, nat>, order: seq<string>, shards: nat, workers: nat)
    requires workers >= 1 && shards >= 1 && Known(order, units)
    ensures forall us <- Placed(units, order, shards, workers) :: Known(us, units)
    decreases |order|
  {
    if order != [] {
      var n := |order| - 1;
      PlacedKnown(units, order[..n], shards, workers);
      var before := Placed(units, order[..n], shards, workers);
      KnownAppend(before[Chosen(units, before, order[n], workers)], order[n], units);
    }
  }

  /** The shard whose wall time with one more unit is least; the first of equals. */
  method Best(units: map<string, nat>, picked: seq<seq<string>>, unit: string, workers: nat) returns (best: nat)
    requires workers >= 1 && picked != []
    requires unit in units && forall us <- picked :: Known(us, units)
    ensures best == Chosen(units, picked, unit, workers)
  {
    ghost var ts := Times(units, picked, unit, workers);
    best := 0;
    KnownAppend(picked[0], unit, units);
    var least := ShardSeconds(units, picked[0] + [unit], workers);
    for i := 1 to |picked|
      invariant best < i
      invariant least == ts[best]
      invariant forall j :: 0 <= j < i ==> ts[best] <= ts[j]
      invariant forall j :: 0 <= j < best ==> ts[best] < ts[j]
    {
      KnownAppend(picked[i], unit, units);
      var seconds := ShardSeconds(units, picked[i] + [unit], workers);
      if seconds < least {
        best, least := i, seconds;
      }
    }
  }

  /** The units in as many shards as asked for; without a shard to put a unit in, an error. */
  method Balanced(units: map<string, nat>, shards: nat, workers: nat) returns (r: Result<seq<seq<string>>, string>)
    requires workers >= 1
    ensures r.Err? <==> shards == 0 && units != map[]
    ensures r.Ok? && shards == 0 ==> r.value == []
    ensures r.Ok? && shards > 0 ==> exists order :: Ordered(units, order) && r.value == Placed(units, order, shards, workers)
  {
    var order := SortUnits(units);
    if shards == 0 {
      if |order| > 0 {
        assert order[0] in units;
        return Err("min() of no shards");
      }
      return Ok([]);
    }
    var picked: seq<seq<string>> := seq(shards, _ => []);
    for n := 0 to |order|
      invariant picked == Placed(units, order[..n], shards, workers)
    {
      assert order[..n + 1][..n] == order[..n];
      PlacedKnown(units, order[..n], shards, workers);
      var best := Best(units, picked, order[n], workers);
      picked := picked[best := picked[best] + [order[n]]];
    }
    assert order[..|order|] == order;
    return Ok(picked);
  }

  // ---------------------------------------------------------------- what every assignment conserves

  /** A measure summed over all shards. */
  ghost function Sum(measure: map<string, nat>, picked: seq<seq<string>>): nat
  {
    if picked == [] then 0
    else Sum(measure, picked[..|picked| - 1]) + Total(measure, picked[|picked| - 1])
  }

  lemma {:induction false} SumAppend(measure: map<string, nat>, picked: seq<seq<string>>, s: nat, u: string)
    requires s < |picked|
    ensures Sum(measure, picked[s := picked[s] + [u]]) == Sum(measure, picked) + At(measure, u)
  {
    var more := picked[s := picked[s] + [u]];
    var n := |picked| - 1;
    if s == n {
      assert more[..n] == picked[..n];
      TotalAppend(measure, picked[s], u);
    } else {
      assert more[..n] == picked[..n][s := picked[..n][s] + [u]];
      SumAppend(measure, picked[..n], s, u);
    }
  }

  lemma {:induction false} SumOfEmpty(measure: map<string, nat>, shards: nat)
    ensures Sum(measure, seq(shards, _ => [])) == 0
  {
    if shards > 0 {
      var picked: seq<seq<string>> := seq(shards, _ => []);
      assert picked[..shards - 1] == seq(shards - 1, _ => []);
      SumOfEmpty(measure, shards - 1);
    }
  }

  /** Placing units moves them, it neither loses nor repeats any: every measure is conserved. */
  lemma {:induction false} PlacedConserves(
      measure: map<string, nat>, units: map<string, nat>, order: seq<string>, shards: nat, workers: nat)
    requires workers >= 1 && shards >= 1
    ensures Sum(measure, Placed(units, order, shards, workers)) == Total(measure, order)
    decreases |order|
  {
    if order == [] {
      SumOfEmpty(measure, shards);
    } else {
      var n := |order| - 1;
      PlacedConserves(measure, units, order[..n], shards, workers);
      var before := Placed(units, order[..n], shards, workers);
      SumAppend(measure, before, Chosen(units, before, order[n], workers), order[n]);
    }
  }

  lemma {:induction false} PartOfSum(measure: map<string, nat>, picked: seq<seq<string>>, s: nat)
    requires s < |picked|
    ensures Total(measure, picked[s]) <= Sum(measure, picked)
  {
    if s < |picked| - 1 {
      PartOfSum(measure, picked[..|picked| - 1], s);
    }
  }

  lemma {:induction false} SumAtLeast(measure: map<string, nat>, picked: seq<seq<string>>, least: nat)
    requires forall us <- picked :: Total(measure, us) >= least
    ensures Sum(measure, picked) >= |picked| * least
  {
    if picked != [] {
      SumAtLeast(measure, picked[..|picked| - 1], least);
      assert |picked| * least == (|picked| - 1) * least + least;
    }
  }

  lemma {:induction false} SumAtMost(measure: map<string, nat>, picked: seq<seq<string>>, most: nat)
    requires forall us <- picked :: Total(measure, us) <= most
    ensures Sum(measure, picked) <= |picked| * most
  {
    if picked != [] {
      SumAtMost(measure, picked[..|picked| - 1], most);
      assert |picked| * most == (|picked| - 1) * most + most;
    }
  }

  // ---------------------------------------------------------------- any other assignment

  /** The units of a list that an assignment sends to one shard. */
  ghost function Sent(us: seq<string>, assignment: map<string, nat>, shard: nat): (r: seq<string>)
    ensures forall u <- r :: u in us
  {
    if us == [] then []
    else
      var u := us[|us| - 1];
      Sent(us[..|us| - 1], assignment, shard) + (if u in assignment && assignment[u] == shard then [u] else [])
  }

  ghost function Assigned(us: seq<string>, assignment: map<string, nat>, shards: nat): (r: seq<seq<string>>)
    ensures |r| == shards
    ensures forall s :: 0 <= s < shards ==> r[s] == Sent(us, assignment, s)
    ensures forall s, u :: 0 <= s < shards && u in r[s] ==> u in us
  {
    seq(shards, s requires 0 <= s < shards => Sent(us, assignment, s))
  }

  lemma {:induction false} AssignedConserves(
      measure: map<string, nat>, us: seq<string>, assignment: map<string, nat>, shards: nat)
    requires forall u <- us :: u in assignment && assignment[u] < shards
    ensures Sum(measure, Assigned(us, assignment, shards)) == Total(measure, us)
  {
    if us == [] {
      assert Assigned(us, assignment, shards) == seq(shards, _ => []);
      SumOfEmpty(measure, shards);
    } else {
      var n := |us| - 1;
      var u := us[n];
      assert u in us;
      AssignedConserves(measure, us[..n], assignment, shards);
      AssignedLast(us, assignment, shards);
      SumAppend(measure, Assigned(us[..n], assignment, shards), assignment[u], u);
    }
  }

  lemma AssignedLast(us: seq<string>, assignment: map<string, nat>, shards: nat)
    requires us != []
    requires forall u <- us :: u in assignment && assignment[u] < shards
    ensures var u := us[|us| - 1];
            u in assignment && assignment[u] < shards
    ensures var u := us[|us| - 1];
            var before := Assigned(us[..|us| - 1], assignment, shards);
            Assigned(us, assignment, shards) == before[assignment[u] := before[assignment[u]] + [u]]
  {
    var u := us[|us| - 1];
    assert u in us;
    var before := Assigned(us[..|us| - 1], assignment, shards);
    var after := Assigned(us, assignment, shards);
    forall s | 0 <= s < shards
      ensures after[s] == if s == assignment[u] then before[s] + [u] else before[s]
    {
      SentLast(us, assignment, s);
    }
  }

  lemma SentLast(us: seq<string>, assignment: map<string, nat>, shard: nat)
    requires us != []
    ensures Sent(us, assignment, shard)
         == (var u := us[|us| - 1];
             var init := Sent(us[..|us| - 1], assignment, shard);
             if u in assignment && assignment[u] == shard then init + [u] else init)
  {
  }

  lemma {:induction false} SentPrefix(
      measure: map<string, nat>, us: seq<string>, n: nat, assignment: map<string, nat>, shard: nat)
    requires n <= |us|
    ensures Total(measure, Sent(us[..n], assignment, shard)) <= Total(measure, Sent(us, assignment, shard))
  {
    if n == |us| {
      assert us[..n] == us;
    } else {
      var m := |us| - 1;
      SentPrefix(measure, us[..m], n, assignment, shard);
      assert us[..m][..n] == us[..n];
      SentLast(us, assignment, shard);
      if us[m] in assignment && assignment[us[m]] == shard {
        TotalAppend(measure, Sent(us[..m], assignment, shard), us[m]);
      }
    }
  }

  // ---------------------------------------------------------------- four thirds of the best

  /** Some assignment of the units to the shards keeps every shard within a limit. */
  ghost predicate Feasible(
      units: map<string, nat>, order: seq<string>, assignment: map<string, nat>, shards: nat, limit: nat)
  {
    && (forall u <- order :: u in assignment && assignment[u] < shards)
    && (forall s :: 0 <= s < shards ==> Total(units, Sent(order, assignment, s)) <= limit)
  }

  /** A unit weighs two when no unit of length p or more fits beside it within the limit. */
  ghost function Weights(units: map<string, nat>, limit: nat, p: nat): map<string, nat> {
    map u | u in units :: if units[u] + p > limit then 2 else 1
  }

  lemma {:induction false} ManyUnitsTakeLong(units: map<string, nat>, us: seq<string>, p: nat)
    requires forall u <- us :: At(units, u) >= p
    ensures Total(units, us) >= |us| * p
  {
    if us != [] {
      ManyUnitsTakeLong(units, us[..|us| - 1], p);
      assert |us| * p == (|us| - 1) * p + p;
    }
  }

  lemma {:induction false} ManyUnitsWeighMuch(units: map<string, nat>, us: seq<string>, limit: nat, p: nat)
    requires Known(us, units)
    ensures Total(Weights(units, limit, p), us) >= |us|
  {
    if us != [] {
      ManyUnitsWeighMuch(units, us[..|us| - 1], limit, p);
    }
  }

  lemma MultiplyMonotone(a: nat, b: nat, p: nat)
    requires a <= b
    ensures a * p <= b * p
  {
    assert b * p == a * p + (b - a) * p;
  }

  lemma AtMostTwoFit(units: map<string, nat>, us: seq<string>, limit: nat, p: nat)
    requires forall u <- us :: At(units, u) >= p
    requires 3 * p > limit && Total(units, us) <= limit
    ensures |us| <= 2
  {
    hide Total, At;
    ManyUnitsTakeLong(units, us, p);
    if |us| > 2 {
      MultiplyMonotone(3, |us|, p);
    }
  }

  /** Within the limit a shard of units longer than a third of it weighs at most two. */
  lemma LightWithinLimit(units: map<string, nat>, us: seq<string>, limit: nat, p: nat)
    requires Known(us, units) && forall u <- us :: At(units, u) >= p
    requires 3 * p > limit && Total(units, us) <= limit
    ensures Total(Weights(units, limit, p), us) <= 2
  {
    AtMostTwoFit(units, us, limit, p);
    if |us| == 2 {
      assert us == [us[0]] + [us[1]];
      TotalAppend(units, [us[0]], us[1]);
      TotalAppend(Weights(units, limit, p), [us[0]], us[1]);
      assert [us[0]][..0] == [];
    } else if |us| == 1 {
      assert us[..0] == [];
    }
  }

  /** A shard that has no room for p more within the limit weighs at least two. */
  lemma HeavyWithoutRoom(units: map<string, nat>, us: seq<string>, limit: nat, p: nat)
    requires Known(us, units)
    requires p <= limit && Total(units, us) + p > limit
    ensures Total(Weights(units, limit, p), us) >= 2
  {
    ManyUnitsWeighMuch(units, us, limit, p);
    if |us| == 1 {
      assert us[..0] == [];
    }
  }

  lemma EarlierUnitsAreLonger(units: map<string, nat>, order: seq<string>, n: nat)
    requires Ordered(units, order) && n < |order|
    ensures Known(order[..n + 1], units)
    ensures forall u <- order[..n + 1] :: At(units, u) >= At(units, order[n])
  {
    forall u | u in order[..n + 1]
      ensures u in units && At(units, u) >= At(units, order[n])
    {
      var i :| 0 <= i <= n && order[i] == u;
      assert order[i] in order;
      assert i < n ==> Before(units, order[i], order[n]);
    }
  }

  /** Each unit up to the n-th is within the limit, as some shard of the other assignment holds it. */
  lemma UnitWithinLimit(
      units: map<string, nat>, order: seq<string>, n: nat, assignment: map<string, nat>, shards: nat, limit: nat)
    requires n < |order| && Feasible(units, order, assignment, shards, limit)
    ensures At(units, order[n]) <= limit
  {
    var prefix := order[..n + 1];
    assert order[n] in order && prefix[..n] == order[..n];
    var s := assignment[order[n]];
    SentLast(prefix, assignment, s);
    TotalAppend(units, Sent(order[..n], assignment, s), order[n]);
    SentPrefix(units, order, n + 1, assignment, s);
  }

  /** The other assignment's shards are light, so the units so far weigh at most two a shard. */
  lemma UnitsWeighTwoPerShard(
      units: map<string, nat>, order: seq<string>, n: nat, assignment: map<string, nat>, shards: nat, limit: nat)
    requires n < |order| && Ordered(units, order)
    requires Feasible(units, order, assignment, shards, limit)
    requires 3 * At(units, order[n]) > limit
    ensures Total(Weights(units, limit, At(units, order[n])), order[..n + 1]) <= 2 * shards
  {
    var p := At(units, order[n]);
    var prefix := order[..n + 1];
    var weights := Weights(units, limit, p);
    var others := Assigned(prefix, assignment, shards);
    EarlierUnitsAreLonger(units, order, n);
    forall us | us in others
      ensures Total(weights, us) <= 2
    {
      var s :| 0 <= s < shards && others[s] == us;
      SentPrefix(units, order, n + 1, assignment, s);
      LightWithinLimit(units, us, limit, p);
    }
    AssignedConserves(weights, prefix, assignment, shards);
    SumAtMost(weights, others, 2);
  }

  /** Units longer than a third of the limit always find a shard with room within it. */
  lemma LongUnitsFindRoom(
      units: map<string, nat>, order: seq<string>, n: nat, shards: nat, workers: nat,
      assignment: map<string, nat>, limit: nat)
    requires workers >= 1 && shards >= 1
    requires Ordered(units, order) && n < |order|
    requires Feasible(units, order, assignment, shards, limit)
    requires 3 * At(units, order[n]) > limit
    ensures exists us <- Placed(units, order[..n], shards, workers) ::
              Total(units, us) + At(units, order[n]) <= limit
  {
    hide Placed, Chosen, Total, Sum;
    var p := At(units, order[n]);
    var placed := Placed(units, order[..n], shards, workers);
    var weights := Weights(units, limit, p);
    UnitWithinLimit(units, order, n, assignment, shards, limit);
    UnitsWeighTwoPerShard(units, order, n, assignment, shards, limit);
    EarlierUnitsAreLonger(units, order, n);
    assert order[..n + 1] == order[..n] + [order[n]];
    TotalAppend(weights, order[..n], order[n]);
    if forall us <- placed :: Total(units, us) + p > limit {
      PlacedKnown(units, order[..n], shards, workers);
      forall us | us in placed
        ensures Total(weights, us) >= 2
      {
        HeavyWithoutRoom(units, us, limit, p);
      }
      PlacedConserves(weights, units, order[..n], shards, workers);
      SumAtLeast(weights, placed, 2);
      assert false;
    }
  }

  /** The shard chosen for a unit holds no more than any other. */
  lemma BestIsLightest(units: map<string, nat>, picked: seq<seq<string>>, unit: string)
    requires picked != []
    ensures forall us <- picked :: Total(units, picked[Chosen(units, picked, unit, 1)]) <= Total(units, us)
  {
    var best := Chosen(units, picked, unit, 1);
    ChosenIsLeast(units, picked, unit, 1);
    OneWorkerSums(units, picked[best] + [unit]);
    TotalAppend(units, picked[best], unit);
    forall s | 0 <= s < |picked|
      ensures Total(units, picked[best]) <= Total(units, picked[s])
    {
      OneWorkerSums(units, picked[s] + [unit]);
      TotalAppend(units, picked[s], unit);
    }
  }

  /** 3m times a load, and (4m - 1) times the limit: their comparison is the bound 4/3 - 1/(3m). */
  ghost function Scaled(shards: nat, load: nat): nat { 3 * shards * load }

  ghost function Allowed(shards: nat, limit: nat): int { (4 * shards - 1) * limit }

  lemma ShortUnitBound(shards: nat, load: nat, p: nat, limit: nat)
    requires shards >= 1 && 3 * p <= limit
    requires shards * load + p <= shards * limit
    ensures Scaled(shards, load + p) <= Allowed(shards, limit)
  {
    assert shards * (load + p) <= shards * limit + (shards - 1) * p;
    assert (shards - 1) * (3 * p) <= (shards - 1) * limit;
    assert 3 * shards * (load + p) == 3 * (shards * (load + p));
    assert 3 * ((shards - 1) * p) == (shards - 1) * (3 * p);
    assert (4 * shards - 1) * limit == 3 * (shards * limit) + (shards - 1) * limit;
  }

  lemma LongUnitBound(shards: nat, load: nat, limit: nat)
    requires shards >= 1 && load <= limit
    ensures Scaled(shards, load) <= Allowed(shards, limit)
  {
    assert shards * load <= shards * limit;
    assert 3 * shards * load == 3 * (shards * load);
    assert (4 * shards - 1) * limit == 3 * (shards * limit) + (shards - 1) * limit;
  }


  /** The units up to the n-th fit the shards, since another assignment keeps them within the limit. */
  lemma UnitsFitTheLimit(
      units: map<string, nat>, order: seq<string>, n: nat, assignment: map<string, nat>, shards: nat, limit: nat)
    requires n < |order|
    requires Feasible(units, order, assignment, shards, limit)
    ensures Total(units, order[..n]) + At(units, order[n]) <= shards * limit
  {
    assert order[..n + 1] == order[..n] + [order[n]];
    TotalAppend(units, order[..n], order[n]);
    TotalPrefix(units, order, n + 1);
    AssignedConserves(units, order, assignment, shards);
    SumAtMost(units, Assigned(order, assignment, shards), limit);
  }

  /** The shard that takes a unit stays within four thirds of the limit when some shard had room. */
  lemma LightestStaysWithinFourThirds(
      units: map<string, nat>, before: seq<seq<string>>, best: nat, p: nat, load: nat, limit: nat)
    requires best < |before| && load == Total(units, before[best]) + p
    requires forall us <- before :: Total(units, before[best]) <= Total(units, us)
    requires Sum(units, before) + p <= |before| * limit
    requires 3 * p <= limit || exists us <- before :: Total(units, us) + p <= limit
    ensures Scaled(|before|, load) <= Allowed(|before|, limit)
  {
    if 3 * p <= limit {
      SumAtLeast(units, before, load - p);
      ShortUnitBound(|before|, load - p, p, limit);
    } else {
      LongUnitBound(|before|, load, limit);
    }
  }

  lemma NextUnitWithinFourThirds(
      units: map<string, nat>, order: seq<string>, n: nat, before: seq<seq<string>>, load: nat,
      assignment: map<string, nat>, limit: nat)
    requires before != [] && n < |order| && before == Placed(units, order[..n], |before|, 1)
    requires Ordered(units, order)
    requires Feasible(units, order, assignment, |before|, limit)
    requires load == Total(units, before[Chosen(units, before, order[n], 1)]) + At(units, order[n])
    ensures Scaled(|before|, load) <= Allowed(|before|, limit)
  {
    hide Scaled, Allowed;
    var p := At(units, order[n]);
    PlacedConserves(units, units, order[..n], |before|, 1);
    assert Sum(units, before) == Total(units, order[..n]);
    UnitsFitTheLimit(units, order, n, assignment, |before|, limit);
    if 3 * p > limit {
      LongUnitsFindRoom(units, order, n, |before|, 1, assignment, limit);
    }
    BestIsLightest(units, before, order[n]);
    LightestStaysWithinFourThirds(units, before, Chosen(units, before, order[n], 1), p, load, limit);
  }

  lemma {:induction false} ShardWithinFourThirds(
      units: map<string, nat>, order: seq<string>, n: nat, shards: nat, s: nat,
      assignment: map<string, nat>, limit: nat)
    requires s < shards
    requires Ordered(units, order) && n <= |order|
    requires Feasible(units, order, assignment, shards, limit)
    ensures Scaled(shards, Total(units, Placed(units, order[..n], shards, 1)[s])) <= Allowed(shards, limit)
  {
    hide Scaled, Allowed;
    var after := Placed(units, order[..n], shards, 1);
    if n == 0 {
      assert Total(units, after[s]) == 0;
      LongUnitBound(shards, 0, limit);
    } else {
      assert order[..n][..n - 1] == order[..n - 1];
      var before := Placed(units, order[..n - 1], shards, 1);
      var best := Chosen(units, before, order[n - 1], 1);
      assert after == before[best := before[best] + [order[n - 1]]];
      if s == best {
        TotalAppend(units, before[best], order[n - 1]);
        NextUnitWithinFourThirds(units, order, n - 1, before, Total(units, after[s]), assignment, limit);
      } else {
        ShardWithinFourThirds(units, order, n - 1, shards, s, assignment, limit);
      }
    }
  }

  /**
   * Graham's bound: with one worker no shard takes more than 4/3 - 1/(3m) of what the best
   * assignment's longest shard takes, for m shards. The limit of any assignment will do.
   */
  lemma WithinFourThirdsOfBest(
      units: map<string, nat>, order: seq<string>, shards: nat, s: nat, assignment: map<string, nat>, limit: nat)
    requires s < shards
    requires Ordered(units, order)
    requires Feasible(units, order, assignment, shards, limit)
    ensures var us := Placed(units, order, shards, 1)[s];
            && Seconds(units, us, 1) == Total(units, us) as real
            && 3 * shards * Total(units, us) <= (4 * shards - 1) * limit
  {
    ShardWithinFourThirds(units, order, |order|, shards, s, assignment, limit);
    assert order[..|order|] == order;
    OneWorkerSums(units, Placed(units, order, shards, 1)[s]);
  }

  // ---------------------------------------------------------------- any number of workers

  /** No shard spends more on a file than all shards together. */
  lemma PlacedFileTotal(units: map<string, nat>, order: seq<string>, shards: nat, workers: nat, s: nat, file: string)
    requires workers >= 1 && s < shards
    ensures FileTotal(units, Placed(units, order, shards, workers)[s], file) <= FileTotal(units, order, file)
  {
    PlacedConserves(OnFile(units, file), units, order, shards, workers);
    PartOfSum(OnFile(units, file), Placed(units, order, shards, workers), s);
  }

  lemma PlacedLongestFile(units: map<string, nat>, order: seq<string>, shards: nat, workers: nat, s: nat)
    requires workers >= 1 && s < shards
    ensures LongestFile(units, Placed(units, order, shards, workers)[s]) <= LongestFile(units, order)
  {
    var us := Placed(units, order, shards, workers)[s];
    if us != [] {
      var u := LongestFileIsAttained(units, us);
      PlacedFileTotal(units, order, shards, workers, s, File(u));
      LongestFileBounds(units, order, File(u));
    }
  }

  lemma NextFileTotal(
      units: map<string, nat>, order: seq<string>, n: nat, before: seq<seq<string>>, workers: nat, s: nat, file: string)
    requires workers >= 1 && n < |order| && s < |before|
    requires before == Placed(units, order[..n], |before|, workers)
    ensures FileTotal(units, before[s] + [order[n]], file) <= FileTotal(units, order, file)
  {
    hide *;
    FileTotalAppend(units, before[s], order[n], file);
    PlacedFileTotal(units, order[..n], |before|, workers, s, file);
    assert order[..n + 1] == order[..n] + [order[n]];
    FileTotalAppend(units, order[..n], order[n], file);
    FileTotalPrefix(units, order, n + 1, file);
  }

  /** The file that takes longest takes no longer on a shard that gets one more unit. */
  lemma NextLongestFile(units: map<string, nat>, order: seq<string>, n: nat, before: seq<seq<string>>, workers: nat, s: nat)
    requires workers >= 1 && n < |order| && s < |before|
    requires before == Placed(units, order[..n], |before|, workers)
    ensures LongestFile(units, before[s] + [order[n]]) <= LongestFile(units, order)
  {
    var us := before[s] + [order[n]];
    var u := LongestFileIsAttained(units, us);
    NextFileTotal(units, order, n, before, workers, s, File(u));
    LongestFileBounds(units, order, File(u));
  }

  lemma TimeAboveFiles(units: map<string, nat>, us: seq<string>, workers: nat, longest: nat)
    requires workers >= 1 && LongestFile(units, us) <= longest
    requires Seconds(units, us, workers) > longest as real
    ensures Seconds(units, us, workers) == Total(units, us) as real / workers as real
  {
  }

  lemma DivideMonotone(a: nat, b: nat, workers: nat)
    requires workers >= 1 && a as real / workers as real <= b as real / workers as real
    ensures a <= b
  {
    var w := workers as real;
    assert a as real == (a as real / w) * w && b as real == (b as real / w) * w;
  }

  /** A shard chosen for a time above every file's is the lightest. */
  lemma ChosenAboveFilesIsLightest(
      units: map<string, nat>, order: seq<string>, n: nat, before: seq<seq<string>>, workers: nat)
    requires workers >= 1 && n < |order| && before != []
    requires before == Placed(units, order[..n], |before|, workers)
    requires var best := Chosen(units, before, order[n], workers);
             Seconds(units, before[best] + [order[n]], workers) > LongestFile(units, order) as real
    ensures var best := Chosen(units, before, order[n], workers);
            forall us <- before :: Total(units, before[best]) <= Total(units, us)
  {
    var unit, longest := order[n], LongestFile(units, order);
    var best := Chosen(units, before, unit, workers);
    ChosenIsLeast(units, before, unit, workers);
    NextLongestFile(units, order, n, before, workers, best);
    TimeAboveFiles(units, before[best] + [unit], workers, longest);
    TotalAppend(units, before[best], unit);
    forall s | 0 <= s < |before|
      ensures Total(units, before[best]) <= Total(units, before[s])
    {
      NextLongestFile(units, order, n, before, workers, s);
      TimeAboveFiles(units, before[s] + [unit], workers, longest);
      TotalAppend(units, before[s], unit);
      DivideMonotone(Total(units, before[best] + [unit]), Total(units, before[s] + [unit]), workers);
    }
  }

  /** A product, named so that proofs can carry it without multiplying out. */
  ghost function Product(a: int, b: int): int { a * b }

  lemma EvenShare(shards: nat, load: nat, x: nat, soFar: nat, all: nat, longest: nat)
    requires shards >= 1 && shards * (load - x) <= soFar && soFar + x <= all && x <= longest
    ensures Product(shards, load) <= all + Product(shards - 1, longest)
  {
    assert shards * load == shards * (load - x) + (shards - 1) * x + x;
    MultiplyMonotone(x, longest, shards - 1);
    assert (shards - 1) * x == x * (shards - 1) && (shards - 1) * longest == longest * (shards - 1);
  }

  lemma NextWithinSplit(
      units: map<string, nat>, order: seq<string>, n: nat, before: seq<seq<string>>, workers: nat, load: nat, longest: nat)
    requires workers >= 1 && n < |order| && before != []
    requires before == Placed(units, order[..n], |before|, workers)
    requires forall u <- order :: At(units, u) <= longest
    requires var best := before[Chosen(units, before, order[n], workers)] + [order[n]];
             && load == Total(units, best)
             && Seconds(units, best, workers) > LongestFile(units, order) as real
    ensures Product(|before|, load) <= Total(units, order) + Product(|before| - 1, longest)
  {
    hide *;
    var best := Chosen(units, before, order[n], workers);
    ChosenAboveFilesIsLightest(units, order, n, before, workers);
    TotalAppend(units, before[best], order[n]);
    SumAtLeast(units, before, load - At(units, order[n]));
    PlacedConserves(units, units, order[..n], |before|, workers);
    TotalAppend(units, order[..n], order[n]);
    assert order[..n + 1] == order[..n] + [order[n]];
    TotalPrefix(units, order, n + 1);
    assert order[n] in order;
    EvenShare(|before|, load, At(units, order[n]), Sum(units, before), Total(units, order), longest);
  }

  lemma StartsEmpty(units: map<string, nat>, order: seq<string>, shards: nat, workers: nat, s: nat)
    requires workers >= 1 && s < shards
    ensures Seconds(units, Placed(units, order[..0], shards, workers)[s], workers) == 0.0
  {
  }

  lemma {:induction false} ShardWithinSplit(
      units: map<string, nat>, order: seq<string>, n: nat, shards: nat, workers: nat, s: nat, longest: nat)
    requires workers >= 1 && s < shards && n <= |order|
    requires forall u <- order :: At(units, u) <= longest
    ensures var us := Placed(units, order[..n], shards, workers)[s];
            || Seconds(units, us, workers) <= LongestFile(units, order) as real
            || Product(shards, Total(units, us)) <= Total(units, order) + Product(shards - 1, longest)
  {
    hide *;
    var us := Placed(units, order[..n], shards, workers)[s];
    if n == 0 {
      StartsEmpty(units, order, shards, workers, s);
    } else {
      PlacedStep(units, order, n - 1, shards, workers);
      var before := Placed(units, order[..n - 1], shards, workers);
      if s != Chosen(units, before, order[n - 1], workers) {
        ShardWithinSplit(units, order, n - 1, shards, workers, s, longest);
      } else if Seconds(units, us, workers) > LongestFile(units, order) as real {
        NextWithinSplit(units, order, n - 1, before, workers, Total(units, us), longest);
      }
    }
  }

  /** (T + (m - 1) u) / (m w): each worker's share when every other shard waits for a longest unit. */
  function EvenSplit(total: nat, longest: nat, shards: nat, workers: nat): real
    requires shards >= 1 && workers >= 1
  {
    (total + (shards - 1) * longest) as real / (shards as real * workers as real)
  }

  lemma ScaleDown(t: real, load: nat, total: nat, longest: nat, shards: nat, workers: nat)
    requires workers >= 1 && shards >= 1
    requires t == load as real / workers as real
    requires Product(shards, load) <= total + Product(shards - 1, longest)
    ensures t <= EvenSplit(total, longest, shards, workers)
  {
    var m, w := shards as real, workers as real;
    var split := total + (shards - 1) * longest;
    assert (shards * load) as real == m * load as real <= split as real;
    assert t * w == load as real;
    assert t * (m * w) == m * load as real;
    assert t == (m * load as real) / (m * w) <= split as real / (m * w);
  }

  /**
   * Whatever the number of workers w, no shard of m takes more than the largest file, or than
   * (T + (m - 1) u) / (m w), for all T seconds and the longest unit u.
   */
  lemma WithinLargestFileOrEvenSplit(
      units: map<string, nat>, order: seq<string>, shards: nat, workers: nat, s: nat, longest: nat)
    requires workers >= 1 && s < shards
    requires forall u <- order :: At(units, u) <= longest
    ensures Seconds(units, Placed(units, order, shards, workers)[s], workers)
         <= MaxReal(LongestFile(units, order) as real, EvenSplit(Total(units, order), longest, shards, workers))
  {
    hide Product, EvenSplit, Placed, Seconds, LongestFile, Total;
    assert order[..|order|] == order;
    var us := Placed(units, order, shards, workers)[s];
    if Seconds(units, us, workers) > LongestFile(units, order) as real {
      ShardWithinSplit(units, order, |order|, shards, workers, s, longest);
      PlacedLongestFile(units, order, shards, workers, s);
      TimeAboveFiles(units, us, workers, LongestFile(units, order));
      ScaleDown(Seconds(units, us, workers), Total(units, us), Total(units, order), longest, shards, workers);
    }
  }

  // ---------------------------------------------------------------- every unit exactly once

  ghost function Pooled(picked: seq<seq<string>>): multiset<string> {
    if picked == [] then multiset{} else Pooled(picked[..|picked| - 1]) + multiset(picked[|picked| - 1])
  }

  lemma {:induction false} PooledAppend(picked: seq<seq<string>>, s: nat, u: string)
    requires s < |picked|
    ensures Pooled(picked[s := picked[s] + [u]]) == Pooled(picked) + multiset{u}
  {
    var more := picked[s := picked[s] + [u]];
    var n := |picked| - 1;
    if s == n {
      assert more[..n] == picked[..n];
    } else {
      assert more[..n] == picked[..n][s := picked[..n][s] + [u]];
      PooledAppend(picked[..n], s, u);
    }
  }

  lemma {:induction false} PooledOfEmpty(shards: nat)
    ensures Pooled(seq(shards, _ => [])) == multiset{}
  {
    if shards > 0 {
      var picked: seq<seq<string>> := seq(shards, _ => []);
      assert picked[..shards - 1] == seq(shards - 1, _ => []);
      PooledOfEmpty(shards - 1);
    }
  }

  lemma {:induction false} PlacedPools(units: map<string, nat>, order: seq<string>, shards: nat, workers: nat)
    requires workers >= 1 && shards >= 1
    ensures Pooled(Placed(units, order, shards, workers)) == multiset(order)
    decreases |order|
  {
    hide Chosen, Pooled;
    if order == [] {
      PooledOfEmpty(shards);
    } else {
      var n := |order| - 1;
      PlacedPools(units, order[..n], shards, workers);
      var before := Placed(units, order[..n], shards, workers);
      PooledAppend(before, Chosen(units, before, order[n], workers), order[n]);
      assert order == order[..n] + [order[n]];
    }
  }

  lemma {:induction false} DistinctMultiset(order: seq<string>)
    requires forall i, j :: 0 <= i < j < |order| ==> order[i] != order[j]
    ensures multiset(order) == multiset(set u <- order)
  {
    if order != [] {
      var n := |order| - 1;
      DistinctMultiset(order[..n]);
      assert order == order[..n] + [order[n]];
      assert (set u <- order) == (set u <- order[..n]) + {order[n]};
    }
  }

  /** Every unit of the table is picked by exactly one shard, once, and nothing else is. */
  lemma EveryUnitPickedOnce(units: map<string, nat>, order: seq<string>, shards: nat, workers: nat)
    requires workers >= 1 && shards >= 1 && Ordered(units, order)
    ensures Pooled(Placed(units, order, shards, workers)) == multiset(units.Keys)
  {
    PlacedPools(units, order, shards, workers);
    OrderedDistinct(units, order);
    DistinctMultiset(order);
    assert (set u <- order) == units.Keys;
  }

  // ---------------------------------------------------------------- when a shard stays empty

  lemma PositiveTotal(units: map<string, nat>, us: seq<string>)
    requires us != [] && forall u <- us :: At(units, u) > 0
    ensures Total(units, us) > 0
  {
    assert us[|us| - 1] in us;
  }

  /** With one worker a unit goes to the first empty shard when the shards before it are loaded. */
  lemma ChosenOpensShard(units: map<string, nat>, before: seq<seq<string>>, unit: string, n: nat)
    requires n < |before| && before[n] == []
    requires forall s :: 0 <= s < n ==> Total(units, before[s]) > 0
    ensures Chosen(units, before, unit, 1) == n
  {
    var best := Chosen(units, before, unit, 1);
    ChosenIsLeast(units, before, unit, 1);
    BestIsLightest(units, before, unit);
    assert before[n] in before && Total(units, before[n]) == 0;
    if best > n {
      OneWorkerSums(units, before[best] + [unit]);
      TotalAppend(units, before[best], unit);
      OneWorkerSums(units, before[n] + [unit]);
      TotalAppend(units, before[n], unit);
    }
  }

  /** With one worker the first units each open a new shard, in order. */
  lemma {:induction false} FirstUnitsOpenShards(units: map<string, nat>, order: seq<string>, n: nat, shards: nat)
    requires shards >= 1 && n <= |order| && n <= shards
    requires forall u <- order :: At(units, u) > 0
    ensures OpenedInOrder(Placed(units, order[..n], shards, 1), order, n)
  {
    hide Chosen, Total, At, Placed;
    if n == 0 {
      NonePlaced(units, order, shards);
    } else {
      FirstUnitsOpenShards(units, order, n - 1, shards);
      PlacedStep(units, order, n - 1, shards, 1);
      var before := Placed(units, order[..n - 1], shards, 1);
      forall s | 0 <= s < n - 1
        ensures Total(units, before[s]) > 0
      {
        assert order[s] in order;
        PositiveTotal(units, before[s]);
      }
      ChosenOpensShard(units, before, order[n - 1], n - 1);
      assert [] + [order[n - 1]] == [order[n - 1]];
    }
  }

  /** The first shards have one unit each, in order, the others none. */
  ghost predicate OpenedInOrder(picked: seq<seq<string>>, order: seq<string>, n: nat) {
    n <= |order| && n <= |picked|
    && forall s :: 0 <= s < |picked| ==> picked[s] == if s < n then [order[s]] else []
  }

  lemma NonePlaced(units: map<string, nat>, order: seq<string>, shards: nat)
    requires shards >= 1
    ensures OpenedInOrder(Placed(units, order[..0], shards, 1), order, 0)
  {
  }

  lemma {:induction false} OpenedStaysOpen(
      units: map<string, nat>, order: seq<string>, n: nat, m: nat, shards: nat, workers: nat, s: nat)
    requires workers >= 1 && s < shards && n <= m <= |order|
    requires Placed(units, order[..n], shards, workers)[s] != []
    ensures Placed(units, order[..m], shards, workers)[s] != []
    decreases m
  {
    hide *;
    if n < m {
      OpenedStaysOpen(units, order, n, m - 1, shards, workers, s);
      PlacedStep(units, order, m - 1, shards, workers);
    }
  }

  /** With one worker and positive seconds, no shard is empty exactly when there are enough units. */
  lemma NoShardEmptyIffEnoughUnits(units: map<string, nat>, order: seq<string>, shards: nat)
    requires shards >= 1 && forall u <- order :: At(units, u) > 0
    ensures (forall s :: 0 <= s < shards ==> Placed(units, order, shards, 1)[s] != []) <==> |order| >= shards
  {
    if |order| >= shards {
      FirstUnitsOpenShards(units, order, shards, shards);
      forall s | 0 <= s < shards
        ensures Placed(units, order, shards, 1)[s] != []
      {
        OpenedStaysOpen(units, order, shards, |order|, shards, 1, s);
        assert order[..|order|] == order;
      }
    } else {
      FirstUnitsOpenShards(units, order, |order|, shards);
      assert order[..|order|] == order;
      assert Placed(units, order, shards, 1)[|order|] == [];
    }
  }

  /** A single unit takes its own seconds, however many workers there are. */
  lemma OneUnitTakesItsSeconds(units: map<string, nat>, u: string, workers: nat)
    requires workers >= 1
    ensures Seconds(units, [u], workers) == At(units, u) as real
  {
    assert [u][..0] == [];
    assert FileTotal(units, [u], File(u)) == At(units, u) by {
      FileTotalAppend(units, [], u, File(u));
      assert [] + [u] == [u];
    }
    assert Total(units, [u]) == At(units, u) && LongestFile(units, [u]) == At(units, u);
    var x, w := At(units, u) as real, workers as real;
    assert x / w * w == x;
    assert x / w <= x;
  }

  lemma ShareOfTwo(a: nat, b: nat, workers: nat)
    requires b <= a && workers >= 2
    ensures (a + b) as real / workers as real <= a as real
  {
    var share := (a + b) as real / workers as real;
    assert share * workers as real == (a + b) as real;
    assert share * 2.0 <= share * workers as real;
  }

  /** On two workers or more the shorter of two units in different files fits beside the longer. */
  lemma ShorterFitsBeside(units: map<string, nat>, u: string, v: string, workers: nat)
    requires At(units, v) <= At(units, u) && File(u) != File(v) && workers >= 2
    ensures Seconds(units, [u, v], workers) == At(units, u) as real
  {
    assert [u, v][..1] == [u] && [u][..0] == [];
    assert [u] + [v] == [u, v] && [] + [u] == [u];
    FileTotalAppend(units, [u], v, File(v));
    FileTotalAppend(units, [], u, File(v));
    FileTotalAppend(units, [], u, File(u));
    assert FileTotal(units, [u], File(u)) == At(units, u) && FileTotal(units, [u, v], File(v)) == At(units, v);
    hide FileTotal, File, At;
    assert LongestFile(units, []) == 0;
    assert LongestFile(units, [u]) == At(units, u);
    assert LongestFile(units, [u, v]) == At(units, u);
    TotalAppend(units, [u], v);
    TotalAppend(units, [], u);
    ShareOfTwo(At(units, u), At(units, v), workers);
    hide Total, LongestFile;
  }

  /** So two units of a second both go to the first shard. */
  lemma BothGoFirst(units: map<string, nat>, u: string, v: string, shards: nat, workers: nat)
    requires At(units, u) == At(units, v) == 1 && File(u) != File(v) && shards >= 1 && workers >= 2
    ensures Placed(units, [u, v], shards, workers)[0] == [u, v]
  {
    hide Chosen, Seconds, At, File;
    assert [u, v][..1] == [u] && [u] + [v] == [u, v] && [] + [v] == [v];
    FirstUnitGoesFirst(units, u, shards, workers);
    var picked := Placed(units, [u], shards, workers);
    ShorterFitsBeside(units, u, v, workers);
    OneUnitTakesItsSeconds(units, v, workers);
    ChosenIsLeast(units, picked, v, workers);
    assert picked[0] + [v] == [u, v] && forall s :: 1 <= s < shards ==> picked[s] + [v] == [v];
    assert Chosen(units, picked, v, workers) == 0;
  }

  lemma {:induction false} ShardsOnlyGrow(
      units: map<string, nat>, order: seq<string>, n: nat, m: nat, shards: nat, workers: nat, s: nat)
    requires workers >= 1 && s < shards && n <= m <= |order|
    ensures Total(units, Placed(units, order[..n], shards, workers)[s])
         <= Total(units, Placed(units, order[..m], shards, workers)[s])
    decreases m
  {
    hide *;
    if n < m {
      ShardsOnlyGrow(units, order, n, m - 1, shards, workers, s);
      PlacedStep(units, order, m - 1, shards, workers);
      TotalAppend(units, Placed(units, order[..m - 1], shards, workers)[s], order[m - 1]);
    }
  }

  /** What the first shard takes beyond one comes on top of one for each. */
  lemma {:induction false} SumBeyondFirst(measure: map<string, nat>, picked: seq<seq<string>>)
    requires picked != [] && forall us <- picked :: Total(measure, us) >= 1
    ensures Sum(measure, picked) >= Total(measure, picked[0]) + |picked| - 1
  {
    var init := picked[..|picked| - 1];
    if init != [] {
      SumBeyondFirst(measure, init);
    }
  }

  /** So many letters: a unit of its own file. */
  function Letters(n: nat): (name: string)
    ensures ':' !in name && |name| == n
  {
    if n == 0 then "" else "a" + Letters(n - 1)
  }

  lemma {:induction false} LettersInOrder(n: nat, m: nat)
    requires n < m
    ensures NameLess(Letters(n), Letters(m))
  {
    if n > 0 {
      LettersInOrder(n - 1, m - 1);
      assert Letters(n)[1..] == Letters(n - 1) && Letters(m)[1..] == Letters(m - 1);
    }
  }

  /** As many units of one second, each in a file of its own. */
  lemma UnitsOfOneSecond(count: nat) returns (units: map<string, nat>, order: seq<string>)
    ensures Ordered(units, order) && |order| == count && forall u <- order :: At(units, u) == 1
    ensures forall i, j :: 0 <= i < j < count ==> File(order[i]) != File(order[j])
  {
    order := seq(count, n requires 0 <= n < count => Letters(n));
    units := map u | u in order :: 1;
    forall i, j | 0 <= i < j < count
      ensures Before(units, order[i], order[j]) && File(order[i]) != File(order[j])
    {
      LettersInOrder(i, j);
    }
  }

  lemma {:induction false} TotalOfOnes(units: map<string, nat>, us: seq<string>)
    requires forall u <- us :: At(units, u) == 1
    ensures Total(units, us) == |us|
  {
    if us != [] {
      TotalOfOnes(units, us[..|us| - 1]);
    }
  }

  /** With more workers the first shard takes two of as many units as there are shards, and another none. */
  lemma SomeShardStaysEmpty(units: map<string, nat>, order: seq<string>, workers: nat)
    requires |order| >= 2 && workers >= 2 && forall u <- order :: At(units, u) == 1
    requires File(order[0]) != File(order[1])
    ensures exists s :: 0 <= s < |order| && Placed(units, order, |order|, workers)[s] == []
  {
    hide Placed, At, File;
    var shards := |order|;
    var picked := Placed(units, order, shards, workers);
    assert order[..2] == [order[0], order[1]] && order[..shards] == order;
    BothGoFirst(units, order[0], order[1], shards, workers);
    TotalOfOnes(units, order[..2]);
    ShardsOnlyGrow(units, order, 2, shards, shards, workers, 0);
    PlacedConserves(units, units, order, shards, workers);
    TotalOfOnes(units, order);
    if forall us <- picked :: Total(units, us) >= 1 {
      SumBeyondFirst(units, picked);
      assert false;
    }
    var us :| us in picked && Total(units, us) == 0;
    var s :| 0 <= s < shards && picked[s] == us;
    PlacedFromOrder(units, order, shards, workers, s);
    if us != [] {
      TotalOfOnes(units, us);
      assert false;
    }
  }

  /** Shards hold units of the order alone. */
  lemma {:induction false} PlacedFromOrder(units: map<string, nat>, order: seq<string>, shards: nat, workers: nat, s: nat)
    requires workers >= 1 && s < shards
    ensures forall u <- Placed(units, order, shards, workers)[s] :: u in order
    decreases |order|
  {
    hide Chosen;
    if order != [] {
      PlacedFromOrder(units, order[..|order| - 1], shards, workers, s);
    }
  }

  /** No shard is empty, whatever the table, when there are as many units as shards: exactly with one worker. */
  lemma NoShardEmptyForAllIff(shards: nat, workers: nat)
    requires shards >= 2 && workers >= 1
    ensures (forall units, order, s ::
               Ordered(units, order) && (forall u <- order :: At(units, u) > 0) && |order| >= shards && 0 <= s < shards ==>
                 Placed(units, order, shards, workers)[s] != []) <==> workers == 1
  {
    hide Placed, Ordered, At;
    if workers == 1 {
      forall units, order, s | Ordered(units, order) && (forall u <- order :: At(units, u) > 0) && |order| >= shards
                               && 0 <= s < shards
        ensures Placed(units, order, shards, 1)[s] != []
      {
        NoShardEmptyIffEnoughUnits(units, order, shards);
      }
    } else {
      var units, order := UnitsOfOneSecond(shards);
      SomeShardStaysEmpty(units, order, workers);
    }
  }

  // ---------------------------------------------------------------- growing the least

  /** By how much one more unit raises a shard's wall time. */
  function Growth(units: map<string, nat>, us: seq<string>, unit: string, workers: nat): real
    requires workers >= 1
  {
    Seconds(units, us + [unit], workers) - Seconds(units, us, workers)
  }

  /** The n-th unit of the order goes to a shard whose time it raises the least. */
  ghost predicate GrowsLeast(units: map<string, nat>, order: seq<string>, n: nat, shards: nat, workers: nat)
    requires workers >= 1 && shards >= 1 && n < |order|
  {
    var picked := Placed(units, order[..n], shards, workers);
    var best := Chosen(units, picked, order[n], workers);
    forall us <- picked :: Growth(units, picked[best], order[n], workers) <= Growth(units, us, order[n], workers)
  }

  lemma OneWorkerGrowth(units: map<string, nat>, us: seq<string>, unit: string)
    ensures Growth(units, us, unit, 1) == At(units, unit) as real
  {
    hide Seconds, Total, At;
    OneWorkerSums(units, us);
    OneWorkerSums(units, us + [unit]);
    TotalAppend(units, us, unit);
  }

  /** With one worker every shard's time grows alike. */
  lemma OneWorkerGrowsLeast(units: map<string, nat>, order: seq<string>, n: nat, shards: nat)
    requires shards >= 1 && n < |order|
    ensures GrowsLeast(units, order, n, shards, 1)
  {
    hide Placed, Chosen, Growth, At;
    var picked := Placed(units, order[..n], shards, 1);
    var best := Chosen(units, picked, order[n], 1);
    OneWorkerGrowth(units, picked[best], order[n]);
    forall us <- picked
      ensures Growth(units, picked[best], order[n], 1) <= Growth(units, us, order[n], 1)
    {
      OneWorkerGrowth(units, us, order[n]);
    }
  }

  lemma NothingTakesNothing(units: map<string, nat>, workers: nat)
    requires workers >= 1
    ensures Seconds(units, [], workers) == 0.0
  {
    assert 0.0 / workers as real == 0.0;
  }

  lemma FirstUnitGoesFirst(units: map<string, nat>, u: string, shards: nat, workers: nat)
    requires shards >= 1 && workers >= 1
    ensures Placed(units, [u], shards, workers) == seq(shards, _ => [])[0 := [u]]
  {
    hide Chosen, Seconds;
    var none: seq<seq<string>> := seq(shards, _ => []);
    assert [u][..0] == [] && none[0] + [u] == [u];
    ChosenIsLeast(units, none, u, workers);
    assert Chosen(units, none, u, workers) == 0;
    assert Placed(units, [u][..0], shards, workers) == none;
  }

  /** Eight seconds go to an empty shard, whose time they raise, and not beside ten, whose time they would not. */
  lemma EightGoElsewhere(units: map<string, nat>, u: string, v: string, shards: nat, workers: nat)
    requires At(units, u) == 10 && At(units, v) == 8 && File(u) != File(v)
    requires shards >= 2 && workers >= 2
    ensures !GrowsLeast(units, [u, v], 1, shards, workers)
  {
    hide Chosen, Seconds, Placed, At, File;
    assert [u, v][..1] == [u];
    assert [u] + [v] == [u, v] && [] + [v] == [v];
    FirstUnitGoesFirst(units, u, shards, workers);
    var picked := Placed(units, [u], shards, workers);
    var best := Chosen(units, picked, v, workers);
    ShorterFitsBeside(units, u, v, workers);
    OneUnitTakesItsSeconds(units, u, workers);
    OneUnitTakesItsSeconds(units, v, workers);
    NothingTakesNothing(units, workers);
    ChosenIsLeast(units, picked, v, workers);
    assert picked[0] == [u] && picked[1] == [] && picked[best] in picked;
    assert Growth(units, picked[0], v, workers) == 0.0;
    assert best != 0 && Growth(units, picked[best], v, workers) == 8.0;
    assert picked[0] in picked;
  }

  lemma TenAndEightInOrder()
    ensures Ordered(map["a:1" := 10, "b:1" := 8], ["a:1", "b:1"]) && File("a:1") != File("b:1")
  {
    assert "a:1"[..2] == "a:" && "a:"[..1] == "a";
    assert "b:1"[..2] == "b:" && "b:"[..1] == "b";
  }

  /** Every unit of every table goes where the time grows the least exactly when there is one worker. */
  lemma GrowsLeastIff(shards: nat, workers: nat)
    requires shards >= 2 && workers >= 1
    ensures (forall units, order, n ::
               Ordered(units, order) && 0 <= n < |order| ==> GrowsLeast(units, order, n, shards, workers)) <==> workers == 1
  {
    hide GrowsLeast;
    if workers == 1 {
      forall units, order, n | Ordered(units, order) && 0 <= n < |order|
        ensures GrowsLeast(units, order, n, shards, 1)
      {
        OneWorkerGrowsLeast(units, order, n, shards);
      }
    } else {
      TenAndEightInOrder();
      EightGoElsewhere(map["a:1" := 10, "b:1" := 8], "a:1", "b:1", shards, workers);
    }
  }

  // ---------------------------------------------------------------- the filters of one shard

  datatype Case = Case(file: string, line: string, key: string)

  function UnitName(folder: string, c: Case): string {
    folder + "/" + c.file + ":" + c.line
  }

  function CaseSeconds(seconds: map<string, nat>, usual: nat, c: Case): nat {
    if c.key in seconds then seconds[c.key] else usual
  }

  /** Cases declared on one line are one unit, which takes their seconds together. */
  method ListedUnits(cases: seq<Case>, seconds: map<string, nat>, usual: nat, folder: string)
      returns (units: map<string, nat>)
    ensures forall u :: u in units <==> exists c <- cases :: UnitName(folder, c) == u
    ensures forall u :: At(units, u) == UnitSeconds(cases, seconds, usual, folder, u)
  {
    units := map[];
    for n := 0 to |cases|
      invariant forall u :: u in units <==> exists c <- cases[..n] :: UnitName(folder, c) == u
      invariant forall u :: At(units, u) == UnitSeconds(cases[..n], seconds, usual, folder, u)
    {
      var unit := UnitName(folder, cases[n]);
      assert cases[..n + 1] == cases[..n] + [cases[n]];
      units := units[unit := At(units, unit) + CaseSeconds(seconds, usual, cases[n])];
    }
    assert cases[..|cases|] == cases;
  }

  ghost function UnitSeconds(cases: seq<Case>, seconds: map<string, nat>, usual: nat, folder: string, unit: string): nat {
    if cases == [] then 0
    else
      var c := cases[|cases| - 1];
      UnitSeconds(cases[..|cases| - 1], seconds, usual, folder, unit)
      + (if UnitName(folder, c) == unit then CaseSeconds(seconds, usual, c) else 0)
  }

  /** A case alone on its line is a unit of its own seconds, or the usual ones without a time. */
  lemma {:induction false} OwnLineOwnSeconds(
      cases: seq<Case>, seconds: map<string, nat>, usual: nat, folder: string, i: nat)
    requires i < |cases|
    requires forall j :: 0 <= j < |cases| && j != i ==> UnitName(folder, cases[j]) != UnitName(folder, cases[i])
    ensures UnitSeconds(cases, seconds, usual, folder, folder + "/" + cases[i].file + ":" + cases[i].line)
         == if cases[i].key in seconds then seconds[cases[i].key] else usual
    decreases |cases|
  {
    var n := |cases| - 1;
    if i < n {
      OwnLineOwnSeconds(cases[..n], seconds, usual, folder, i);
    } else {
      OtherLines(cases[..n], seconds, usual, folder, UnitName(folder, cases[n]));
    }
  }

  lemma {:induction false} OtherLines(cases: seq<Case>, seconds: map<string, nat>, usual: nat, folder: string, unit: string)
    requires forall c <- cases :: UnitName(folder, c) != unit
    ensures UnitSeconds(cases, seconds, usual, folder, unit) == 0
  {
    if cases != [] {
      OtherLines(cases[..|cases| - 1], seconds, usual, folder, unit);
      assert cases[|cases| - 1] in cases;
    }
  }

  /** The place that an index names in a list: a negative one counts from the end. */
  function Place(index: int, length: nat): (r: Option<nat>)
    ensures r.Some? <==> 0 <= index + length < 2 * length
    ensures r.Some? ==> r.value < length && (r.value == index || r.value == index + length)
  {
    if 0 <= index < length then Some(index)
    else if index < 0 <= index + length then Some(index + length)
    else None
  }

  /** The units of the shard with that number, counted from one; none when there is no such shard. */
  ghost function OfShard(units: map<string, nat>, order: seq<string>, index: int, total: int, workers: nat): set<string>
    requires workers >= 1
  {
    if total < 1 || Place(index - 1, total).None? then {}
    else
      var us := Placed(units, order, total, workers)[Place(index - 1, total).value];
      set u <- us
  }

  /** One shard's units by name, or an error exactly when it has none. */
  method ShardFilters(
      cases: seq<Case>, seconds: map<string, nat>, usual: nat, index: int, total: int, folder: string, workers: nat)
      returns (r: Result<seq<string>, string>, ghost units: map<string, nat>, ghost order: seq<string>)
    requires workers >= 1
    ensures forall u :: u in units <==> exists c <- cases :: UnitName(folder, c) == u
    ensures forall u :: At(units, u) == UnitSeconds(cases, seconds, usual, folder, u)
    ensures Ordered(units, order)
    ensures r.Err? <==> OfShard(units, order, index, total, workers) == {}
    ensures r.Ok? ==> forall u :: u in r.value <==> u in OfShard(units, order, index, total, workers)
    ensures r.Ok? ==> forall i, j :: 0 <= i < j < |r.value| ==> NameLess(r.value[i], r.value[j])
  {
    var table := ListedUnits(cases, seconds, usual, folder);
    var shards := if total < 0 then 0 else total;
    var balanced := Balanced(table, shards, workers);
    units := table;
    if shards == 0 {
      order := SortUnits(table);
      return Err(if balanced.Err? then balanced.error else "list index out of range"), units, order;
    }
    order :| Ordered(units, order) && balanced.value == Placed(units, order, shards, workers);
    var place := Place(index - 1, shards);
    if place.None? {
      return Err("list index out of range"), units, order;
    }
    var picked := balanced.value[place.value];
    if picked == [] {
      return Err("the shard has no cases; use fewer shards"), units, order;
    }
    var byName := map u <- picked :: 0;
    var sorted := SortUnits(byName);
    assert picked[0] in byName;
    forall i, j | 0 <= i < j < |sorted|
      ensures NameLess(sorted[i], sorted[j])
    {
      assert Before(byName, sorted[i], sorted[j]);
    }
    return Ok(sorted), units, order;
  }
}
