/**
 * The import log: for every imported file, the list of entries its importer returned, and
 * the two tables rendered from them — a per-file summary of status counts and a detailed
 * listing of every entry.
 */
module Logging {
  import opened Wrappers
  import opened Php
  import opened OrderedMap
  import opened Engine
  import TermImporting

  /** One log entry: a field map in insertion order (a Collection keyed by field name). */
  type Entry = OMap<Value>

  /** A rendered table: its header line and its rows of cells. */
  datatype Table = Table(headers: seq<string>, rows: seq<seq<Value>>)

  /** Str::title and Str::lower, which the model takes as given. */
  datatype CaseMap = CaseMap(title: string -> string, lower: string -> string)

  // ---------------------------------------------------------------------------------------
  // Status counts
  // ---------------------------------------------------------------------------------------

  /** A key of the stats array: 'total', or one of the five status codes. */
  datatype Slot = TotalSlot | CodeSlot(code: int)

  /** The key of the stats array that `isset($stats[$status])` finds, if any. PHP turns a
      canonical decimal string into its integer and a boolean into 0 or 1; null becomes the
      key "", which the array lacks, and so does every other string and integer. */
  function SlotOf(status: Option<Value>): (r: Option<Slot>)
    ensures r.Some? && r.value.CodeSlot? ==> 0 <= r.value.code <= 4
    ensures status.None? || status == Some(Null) ==> r.None?
    ensures forall i :: status == Some(Int(i)) ==> (r == Some(CodeSlot(i)) <==> 0 <= i <= 4) && (r.Some? ==> r == Some(CodeSlot(i)))
    ensures r == Some(TotalSlot) <==> status == Some(Str("total"))
    ensures status == Some(Bool(false)) ==> r == Some(CodeSlot(0))
    ensures status == Some(Bool(true)) ==> r == Some(CodeSlot(1))
    ensures forall c: nat :: c <= 4 && status == Some(Str(NatToString(c))) ==> r == Some(CodeSlot(c))
    ensures status.Some? && status.value.Str? && r.Some? && r.value.CodeSlot? ==>
              r.value.code >= 0 && status.value.s == NatToString(r.value.code)
  {
    match status
    case None => None
    case Some(v) =>
      match v
      case Null => None
      case Bool(b) => Some(CodeSlot(if b then 1 else 0))
      case Int(i) => if 0 <= i <= 4 then Some(CodeSlot(i)) else None
      case Str(s) =>
        if s == "total" then Some(TotalSlot)
        else if |s| == 1 && '0' <= s[0] <= '4' then Some(CodeSlot(s[0] as int - '0' as int))
        else None
      case Arr(_) => None
  }

  /** Where an entry's status is counted. */
  function EntrySlot(e: Entry): Option<Slot> {
    SlotOf(Lookup(e, "status"))
  }

  /** The stats array: 'total' and the counts of the codes 0 to 4, in code order. */
  datatype Stats = Stats(total: int, counts: seq<int>)

  /** Before any entry is counted: 'total' is the number of entries, every code count 0. */
  function Initial(n: nat): (st: Stats)
    ensures st.total == n && st.counts == [0, 0, 0, 0, 0]
  {
    Stats(n, [0, 0, 0, 0, 0])
  }

  /** `$stats[$status]++` when the key is set. */
  function Bump(st: Stats, slot: Option<Slot>): (r: Stats)
    requires |st.counts| == 5
    requires slot.Some? && slot.value.CodeSlot? ==> 0 <= slot.value.code <= 4
    ensures |r.counts| == 5
  {
    match slot
    case None => st
    case Some(TotalSlot) => st.(total := st.total + 1)
    case Some(CodeSlot(c)) => st.(counts := st.counts[c := st.counts[c] + 1])
  }

  /** The stats array after counting entries, starting from Initial(n). */
  function Counted(n: nat, entries: seq<Entry>): (r: Stats)
    ensures |r.counts| == 5
    decreases |entries|
  {
    if entries == [] then Initial(n)
    else Bump(Counted(n, entries[..|entries| - 1]), EntrySlot(entries[|entries| - 1]))
  }

  /** What calculateStats returns for a file's entries. */
  function StatsOf(entries: seq<Entry>): (r: Stats)
    ensures |r.counts| == 5
  {
    Counted(|entries|, entries)
  }

  /** The number of entries counted under a slot, read from the front. */
  function CountOf(entries: seq<Entry>, slot: Slot): nat
    decreases |entries|
  {
    if entries == [] then 0
    else (if EntrySlot(entries[0]) == Some(slot) then 1 else 0) + CountOf(entries[1..], slot)
  }

  lemma {:induction false} CountOfAppend(a: seq<Entry>, b: seq<Entry>, slot: Slot)
    ensures CountOf(a + b, slot) == CountOf(a, slot) + CountOf(b, slot)
    decreases |a|
  {
    if a != [] {
      assert (a + b)[0] == a[0];
      assert (a + b)[1..] == a[1..] + b;
      CountOfAppend(a[1..], b, slot);
    } else {
      assert a + b == b;
    }
  }

  /** Counting is the same as counting each slot separately. */
  lemma {:induction false} CountedCounts(n: nat, entries: seq<Entry>)
    ensures Counted(n, entries).total == n + CountOf(entries, TotalSlot)
    ensures forall c :: 0 <= c < 5 ==> Counted(n, entries).counts[c] == CountOf(entries, CodeSlot(c))
    decreases |entries|
  {
    if entries != [] {
      var init := entries[..|entries| - 1];
      var last := entries[|entries| - 1];
      CountedCounts(n, init);
      assert entries == init + [last];
      BumpCounts(Counted(n, init), EntrySlot(last));
      CountOfAppend(init, [last], TotalSlot);
      CountOfOne(last, TotalSlot);
      forall c | 0 <= c < 5
        ensures Counted(n, entries).counts[c] == CountOf(entries, CodeSlot(c))
      {
        CountOfAppend(init, [last], CodeSlot(c));
        CountOfOne(last, CodeSlot(c));
      }
    }
  }

  /** One bump adds one to the slot it is given and nothing elsewhere. */
  lemma BumpCounts(st: Stats, slot: Option<Slot>)
    requires |st.counts| == 5
    requires slot.Some? && slot.value.CodeSlot? ==> 0 <= slot.value.code <= 4
    ensures Bump(st, slot).total == st.total + (if slot == Some(TotalSlot) then 1 else 0)
    ensures forall c :: 0 <= c < 5 ==>
      Bump(st, slot).counts[c] == st.counts[c] + (if slot == Some(CodeSlot(c)) then 1 else 0)
  {
  }

  /** A single entry is counted under its own slot only. */
  lemma CountOfOne(e: Entry, slot: Slot)
    ensures CountOf([e], slot) == if EntrySlot(e) == Some(slot) then 1 else 0
  {
    assert [e][1..] == [];
  }

  /** Each code column counts exactly the entries whose status is that code (codes outside
      0 to 4 count nowhere), and 'total' is the number of entries plus, through the key
      shared with the stats array, the entries whose status is the string "total". */
  lemma StatsCountEntries(entries: seq<Entry>)
    ensures StatsOf(entries).total == |entries| + CountOf(entries, TotalSlot)
    ensures forall c :: 0 <= c < 5 ==> StatsOf(entries).counts[c] == CountOf(entries, CodeSlot(c))
  {
    CountedCounts(|entries|, entries);
  }

  lemma {:induction false} CountOfAbsent(entries: seq<Entry>, slot: Slot)
    requires forall i :: 0 <= i < |entries| ==> EntrySlot(entries[i]) != Some(slot)
    ensures CountOf(entries, slot) == 0
    decreases |entries|
  {
    if entries != [] {
      CountOfAbsent(entries[1..], slot);
    }
  }

  /** 'total' is the number of entries when no entry's status is the string "total". */
  lemma TotalIsEntryCount(entries: seq<Entry>)
    requires forall i :: 0 <= i < |entries| ==> Lookup(entries[i], "status") != Some(Str("total"))
    ensures StatsOf(entries).total == |entries|
  {
    CountOfAbsent(entries, TotalSlot);
    StatsCountEntries(entries);
  }

  /** The entry's status is one of the five codes. */
  predicate HasStatusCode(e: Entry) {
    exists s: Status :: Lookup(e, "status") == Some(Int(Code(s)))
  }

  function Sum5(counts: seq<int>): int
    requires |counts| == 5
  {
    counts[0] + counts[1] + counts[2] + counts[3] + counts[4]
  }

  lemma {:induction false} CountedSum(n: nat, entries: seq<Entry>)
    requires forall i :: 0 <= i < |entries| ==> HasStatusCode(entries[i])
    ensures Counted(n, entries).total == n
    ensures Sum5(Counted(n, entries).counts) == |entries|
    decreases |entries|
  {
    if entries != [] {
      var last := entries[|entries| - 1];
      assert HasStatusCode(last);
      var s: Status :| Lookup(last, "status") == Some(Int(Code(s)));
      assert EntrySlot(last) == Some(CodeSlot(Code(s)));
      CountedSum(n, entries[..|entries| - 1]);
    }
  }

  /** The five status counts add up to 'total' when every status is one of the codes. */
  lemma CountsSumToTotal(entries: seq<Entry>)
    requires forall i :: 0 <= i < |entries| ==> HasStatusCode(entries[i])
    ensures Sum5(StatsOf(entries).counts) == StatsOf(entries).total == |entries|
  {
    CountedSum(|entries|, entries);
  }

  // ---------------------------------------------------------------------------------------
  // Summary
  // ---------------------------------------------------------------------------------------

  const SummaryHeaders: seq<string> := ["File", "Total", "Created", "Updated", "Skipped", "Failed", "No Change"]

  /** What follows the last '/'. */
  function AfterLastSlash(s: string): (r: string)
    ensures '/' !in r
    ensures |r| <= |s| && r == s[|s| - |r|..]
    ensures |r| < |s| ==> s[|s| - |r| - 1] == '/'
    decreases |s|
  {
    if s == [] || s[|s| - 1] == '/' then []
    else AfterLastSlash(s[..|s| - 1]) + [s[|s| - 1]]
  }

  /** basename($path): trailing slashes are dropped, then what follows the last '/' is kept. */
  function Basename(path: string): (r: string)
    ensures '/' !in r
  {
    AfterLastSlash(TrimRight(path, {'/'}))
  }

  lemma {:induction false} AfterLastSlashOfName(dir: string, name: string)
    requires '/' !in name
    ensures AfterLastSlash(dir + "/" + name) == name
    decreases |name|
  {
    var s := dir + "/" + name;
    if name != [] {
      assert s[..|s| - 1] == dir + "/" + name[..|name| - 1];
      AfterLastSlashOfName(dir, name[..|name| - 1]);
      assert name[..|name| - 1] + [name[|name| - 1]] == name;
    }
  }

  /** The basename of a path into a directory is the file's own name, with or without a
      trailing slash. */
  lemma BasenameOfChild(dir: string, name: string)
    requires name != [] && '/' !in name
    ensures Basename(dir + "/" + name) == name
    ensures Basename(dir + "/" + name + "/") == name
  {
    var s := dir + "/" + name;
    assert s[|s| - 1] == name[|name| - 1];
    assert (s + "/")[..|s|] == s;
    AfterLastSlashOfName(dir, name);
  }

  /** One summary row: the file's basename, 'total', then the five code counts. */
  function SummaryRow(path: string, st: Stats): (row: seq<Value>)
    requires |st.counts| == 5
    ensures |row| == |SummaryHeaders|
  {
    [Str(Basename(path)), Int(st.total),
     Int(st.counts[0]), Int(st.counts[1]), Int(st.counts[2]), Int(st.counts[3]), Int(st.counts[4])]
  }

  /** getSummary(): one row per file, in the order the files were first added. */
  function Summary(log: OMap<seq<Entry>>): (t: Table)
    requires Valid(log)
    ensures t.headers == SummaryHeaders && |t.rows| == |log.keys|
    ensures forall i :: 0 <= i < |log.keys| ==> t.rows[i] == SummaryRow(log.keys[i], StatsOf(log.items[log.keys[i]]))
  {
    Table(SummaryHeaders, seq(|log.keys|, i requires 0 <= i < |log.keys| =>
      SummaryRow(log.keys[i], StatsOf(log.items[log.keys[i]]))))
  }

  /** Adding a file again replaces its row where it stands; adding a new file appends its
      row; every other row stays as it was. */
  lemma SummaryAfterAdd(log: OMap<seq<Entry>>, path: string, entries: seq<Entry>)
    requires Valid(log)
    ensures |Summary(Put(log, path, entries)).rows| == |Summary(log).rows| + (if path in log.keys then 0 else 1)
    ensures forall i :: 0 <= i < |log.keys| && log.keys[i] != path ==>
              Summary(Put(log, path, entries)).rows[i] == Summary(log).rows[i]
    ensures forall i :: 0 <= i < |Put(log, path, entries).keys| && Put(log, path, entries).keys[i] == path ==>
              Summary(Put(log, path, entries)).rows[i] == SummaryRow(path, StatsOf(entries))
  {
    var m := Put(log, path, entries);
    var before, after := Summary(log).rows, Summary(m).rows;
    forall i | 0 <= i < |log.keys| && log.keys[i] != path
      ensures after[i] == before[i]
    {
      var k := log.keys[i];
      assert m.keys[i] == k;
      assert Lookup(m, k) == Lookup(log, k);
      assert k in log.items && k in m.items;
      assert m.items[k] == log.items[k];
    }
    forall i | 0 <= i < |m.keys| && m.keys[i] == path
      ensures after[i] == SummaryRow(path, StatsOf(entries))
    {
      assert Lookup(m, path) == Some(entries);
      assert m.items[path] == entries;
    }
  }

  // ---------------------------------------------------------------------------------------
  // Details
  // ---------------------------------------------------------------------------------------

  /** The label of a status code. */
  function Label(s: Status): string {
    match s
    case Created => "<fg=green>CREATED</>"
    case Updated => "UPDATED"
    case Skipped => "<fg=yellow>SKIPPED</>"
    case Failed => "<fg=red>FAILED</>"
    case Noop => "<fg=yellow>NOOP</>"
  }

  /** formatStatus(): a code's label, or the decimal string of any other integer; a label
      never starts the way a number does. */
  function FormatStatus(status: int): (r: string)
    ensures |r| >= 1
    ensures (0 <= status <= 4) <==> !('0' <= r[0] <= '9' || r[0] == '-')
  {
    match StatusOfCode(status)
    case Some(s) => Label(s)
    case None => IntToString(status)
  }

  lemma IntToStringStart(i: int)
    ensures '0' <= IntToString(i)[0] <= '9' || IntToString(i)[0] == '-'
    ensures IntToString(i)[0] == '-' <==> i < 0
  {
    if i < 0 {
      assert IntToString(i)[0] == '-';
    } else {
      assert IntToString(i) == NatToString(i);
    }
  }

  lemma NegativeToString(a: int)
    requires a < 0
    ensures IntToString(a)[0] == '-' && IntToString(a)[1..] == NatToString(-a)
  {
    var n := NatToString(-a);
    assert IntToString(a) == "-" + n;
    assert ("-" + n)[1..] == n;
  }

  lemma NatToStringInjective(m: nat, n: nat)
    requires NatToString(m) == NatToString(n)
    ensures m == n
  {
    NatToStringRoundTrip(m);
    NatToStringRoundTrip(n);
  }

  lemma IntToStringInjective(a: int, b: int)
    requires IntToString(a) == IntToString(b)
    ensures a == b
  {
    IntToStringStart(a);
    IntToStringStart(b);
    if a < 0 {
      NegativeToString(a);
      NegativeToString(b);
      NatToStringInjective(-a, -b);
    } else {
      NatToStringInjective(a, b);
    }
  }

  /** The status cell identifies the status: different integers render differently. */
  lemma FormatStatusInjective(a: int, b: int)
    requires FormatStatus(a) == FormatStatus(b)
    ensures a == b
  {
    var r := FormatStatus(a);
    if 0 <= a <= 4 && 0 <= b <= 4 {
      var sa := StatusOfCode(a).value;
      var sb := StatusOfCode(b).value;
      assert Label(sa) == Label(sb);
      assert |Label(sa)| == |Label(sb)| && Label(sa)[|Label(sa)| - 2] == Label(sb)[|Label(sb)| - 2];
    } else if !(0 <= a <= 4) && !(0 <= b <= 4) {
      IntToStringInjective(a, b);
    }
  }

  /** The codes render as their labels. */
  lemma FormatStatusOfCode(s: Status)
    ensures FormatStatus(Code(s)) == Label(s)
  {
    CodeRoundTrip(s);
  }

  /** The message of the TypeError formatStatus(int) raises for a status that is not an
      integer under declare(strict_types=1). */
  const StatusNotInt := "ImportLog::formatStatus(): Argument #1 ($status) must be of type int"

  /** The message of the TypeError a detail cell closure declared `: string` raises when it
      returns anything else. */
  const CellNotString := "ImportLog::{closure}(): Return value must be of type string"

  /** $entry->get($key, ''): a missing key reads as ''. */
  function CellValue(e: Entry, key: string): (v: Value)
    ensures Lookup(e, key).None? ==> v == Str("")
    ensures Lookup(e, key).Some? ==> v == Lookup(e, key).value
  {
    Lookup(e, key).GetOr(Str(""))
  }

  /** One detail cell under a header. When `strict`, the cell closure's declared `: string`
      return type is enforced, as the code is written. */
  function Cell(e: Entry, header: string, cm: CaseMap, strict: bool): (r: Result<Value, Error>)
    ensures r.Ok? && strict ==> r.value.Str?
  {
    var key := cm.lower(header);
    var v := CellValue(e, key);
    if key == "status" then
      if v.Int? then Ok(Str(FormatStatus(v.i))) else Err(TypeError(StatusNotInt))
    else if strict && !v.Str? then Err(TypeError(CellNotString))
    else Ok(v)
  }

  /** The cells of one entry, one per header, left to right; the first error is thrown. */
  function RowCells(e: Entry, headers: seq<string>, cm: CaseMap, strict: bool): (r: Result<seq<Value>, Error>)
    ensures r.Ok? ==> |r.value| == |headers|
    decreases |headers|
  {
    if headers == [] then Ok([])
    else
      var c :- Cell(e, headers[0], cm, strict);
      var rest :- RowCells(e, headers[1..], cm, strict);
      Ok([c] + rest)
  }

  /** The rows of all entries, top to bottom; the first error is thrown. */
  function Rows(entries: seq<Entry>, headers: seq<string>, cm: CaseMap, strict: bool): (r: Result<seq<seq<Value>>, Error>)
    ensures r.Ok? ==> |r.value| == |entries|
    ensures r.Ok? ==> forall i :: 0 <= i < |r.value| ==> |r.value[i]| == |headers|
    decreases |entries|
  {
    if entries == [] then Ok([])
    else
      var row :- RowCells(entries[0], headers, cm, strict);
      var rest :- Rows(entries[1..], headers, cm, strict);
      Ok([row] + rest)
  }

  /** flatten(1): the entries of every file, the files in the order they were added. */
  function AllEntries(keys: seq<string>, files: map<string, seq<Entry>>): seq<Entry>
    decreases |keys|
  {
    if keys == [] then [] else Get(files, keys[0]).GetOr([]) + AllEntries(keys[1..], files)
  }

  /** flatMap(keys()): every entry's keys, entry after entry. */
  function AllKeys(entries: seq<Entry>): seq<string>
    decreases |entries|
  {
    if entries == [] then [] else entries[0].keys + AllKeys(entries[1..])
  }

  /** unique(): the first occurrence of each element, in order. */
  function Unique(s: seq<string>): (r: seq<string>)
    ensures forall i, j :: 0 <= i < j < |r| ==> r[i] != r[j]
    ensures forall x :: x in r <==> x in s
    decreases |s|
  {
    if s == [] then []
    else
      var u := Unique(s[..|s| - 1]);
      assert s == s[..|s| - 1] + [s[|s| - 1]];
      if s[|s| - 1] in u then u else u + [s[|s| - 1]]
  }

  /** Later elements never reorder the distinct elements already seen: a key takes its
      column when it first occurs. */
  lemma {:induction false} UniqueExtends(s: seq<string>, t: seq<string>)
    ensures Unique(s) <= Unique(s + t)
    decreases |t|
  {
    if t != [] {
      var s' := s + t[..|t| - 1];
      assert (s + t)[..|s + t| - 1] == s';
      UniqueExtends(s, t[..|t| - 1]);
      var u, u' := Unique(s), Unique(s');
      assert u' <= Unique(s + t);
      assert |u| <= |u'| && u == u'[..|u|];
      assert |u| <= |Unique(s + t)| && u == Unique(s + t)[..|u|];
    } else {
      assert s + t == s;
    }
  }

  /** A sequence without repetitions is its own unique(). */
  lemma {:induction false} UniqueOfDistinct(s: seq<string>)
    requires forall i, j :: 0 <= i < j < |s| ==> s[i] != s[j]
    ensures Unique(s) == s
    decreases |s|
  {
    if s != [] {
      var init := s[..|s| - 1];
      UniqueOfDistinct(init);
      assert s[|s| - 1] !in init;
      assert s == init + [s[|s| - 1]];
    }
  }

  /** The detail headers: the distinct keys of all entries, in first-seen order, title-cased. */
  function Headers(entries: seq<Entry>, cm: CaseMap): (h: seq<string>)
    ensures |h| == |Unique(AllKeys(entries))|
    ensures forall j :: 0 <= j < |h| ==> h[j] == cm.title(Unique(AllKeys(entries))[j])
  {
    var u := Unique(AllKeys(entries));
    seq(|u|, j requires 0 <= j < |u| => cm.title(u[j]))
  }

  /** getDetails(), with the cell closure's return type enforced when `strict`. */
  function DetailsWith(log: OMap<seq<Entry>>, cm: CaseMap, strict: bool): (r: Result<Table, Error>)
    ensures log.keys == [] ==> r == Ok(Table([], []))
    ensures r.Ok? && log.keys != [] ==>
              && r.value.headers == Headers(AllEntries(log.keys, log.items), cm)
              && |r.value.rows| == |AllEntries(log.keys, log.items)|
              && forall i :: 0 <= i < |r.value.rows| ==> |r.value.rows[i]| == |r.value.headers|
  {
    if log.keys == [] then Ok(Table([], []))
    else
      var all := AllEntries(log.keys, log.items);
      var headers := Headers(all, cm);
      var rows :- Rows(all, headers, cm, strict);
      Ok(Table(headers, rows))
  }

  /** getDetails() as written: a cell holding anything but a string raises a TypeError. */
  function DetailsAsWritten(log: OMap<seq<Entry>>, cm: CaseMap): (r: Result<Table, Error>)
    ensures r.Ok? ==> forall i, j :: 0 <= i < |r.value.rows| && 0 <= j < |r.value.rows[i]| ==> r.value.rows[i][j].Str?
  {
    var r := DetailsWith(log, cm, true);
    if r.Ok? && log.keys != [] then
      StrictRowsAreStrings(AllEntries(log.keys, log.items), Headers(AllEntries(log.keys, log.items), cm), cm);
      r
    else r
  }

  lemma {:induction false} StrictCellsAreStrings(e: Entry, headers: seq<string>, cm: CaseMap)
    requires RowCells(e, headers, cm, true).Ok?
    ensures forall j :: 0 <= j < |headers| ==> RowCells(e, headers, cm, true).value[j].Str?
    decreases |headers|
  {
    if headers != [] {
      StrictCellsAreStrings(e, headers[1..], cm);
    }
  }

  lemma {:induction false} StrictRowsAreStrings(entries: seq<Entry>, headers: seq<string>, cm: CaseMap)
    requires Rows(entries, headers, cm, true).Ok?
    ensures forall i, j :: 0 <= i < |entries| && 0 <= j < |headers| ==> Rows(entries, headers, cm, true).value[i][j].Str?
    decreases |entries|
  {
    if entries != [] {
      StrictCellsAreStrings(entries[0], headers, cm);
      StrictRowsAreStrings(entries[1..], headers, cm);
    }
  }

  /** getDetails() with the cells as the documented return type has them (any value). */
  function Details(log: OMap<seq<Entry>>, cm: CaseMap): (r: Result<Table, Error>)
    ensures log.keys == [] ==> r == Ok(Table([], []))
  {
    DetailsWith(log, cm, false)
  }

  /** Where the code as written succeeds it agrees with the corrected rendering. */
  lemma AsWrittenAgrees(log: OMap<seq<Entry>>, cm: CaseMap)
    requires DetailsAsWritten(log, cm).Ok?
    ensures Details(log, cm) == DetailsAsWritten(log, cm)
  {
    if log.keys != [] {
      var all := AllEntries(log.keys, log.items);
      StrictRowsAgree(all, Headers(all, cm), cm);
    }
  }

  lemma {:induction false} StrictCellsAgree(e: Entry, headers: seq<string>, cm: CaseMap)
    requires RowCells(e, headers, cm, true).Ok?
    ensures RowCells(e, headers, cm, false) == RowCells(e, headers, cm, true)
    decreases |headers|
  {
    if headers != [] {
      StrictCellsAgree(e, headers[1..], cm);
    }
  }

  lemma {:induction false} StrictRowsAgree(entries: seq<Entry>, headers: seq<string>, cm: CaseMap)
    requires Rows(entries, headers, cm, true).Ok?
    ensures Rows(entries, headers, cm, false) == Rows(entries, headers, cm, true)
    decreases |entries|
  {
    if entries != [] {
      StrictCellsAgree(entries[0], headers, cm);
      StrictRowsAgree(entries[1..], headers, cm);
    }
  }

  /** The cell the corrected rendering puts under key k: the formatted status in the status
      column, otherwise the entry's value, or '' when the entry lacks the key. */
  function ExpectedCell(e: Entry, k: string): Value
    requires k == "status" ==> CellValue(e, k).Int?
  {
    if k == "status" then Str(FormatStatus(CellValue(e, k).i)) else CellValue(e, k)
  }

  /** Every key reads back from its title-cased header. */
  predicate CaseRoundTrips(cm: CaseMap, keys: seq<string>) {
    forall k :: k in keys ==> cm.lower(cm.title(k)) == k
  }

  /** Every entry's status is an integer. */
  predicate IntStatuses(entries: seq<Entry>) {
    forall i :: 0 <= i < |entries| ==> CellValue(entries[i], "status").Int?
  }

  lemma {:induction false} CellsExpected(e: Entry, keys: seq<string>, headers: seq<string>, cm: CaseMap)
    requires |headers| == |keys|
    requires forall j :: 0 <= j < |keys| ==> headers[j] == cm.title(keys[j]) && cm.lower(headers[j]) == keys[j]
    requires CellValue(e, "status").Int?
    ensures RowCells(e, headers, cm, false).Ok?
    ensures forall j :: 0 <= j < |keys| ==> RowCells(e, headers, cm, false).value[j] == ExpectedCell(e, keys[j])
    decreases |headers|
  {
    if headers != [] {
      CellsExpected(e, keys[1..], headers[1..], cm);
    }
  }

  lemma {:induction false} RowsExpected(entries: seq<Entry>, keys: seq<string>, headers: seq<string>, cm: CaseMap)
    requires |headers| == |keys|
    requires forall j :: 0 <= j < |keys| ==> headers[j] == cm.title(keys[j]) && cm.lower(headers[j]) == keys[j]
    requires IntStatuses(entries)
    ensures Rows(entries, headers, cm, false).Ok?
    ensures forall i, j :: 0 <= i < |entries| && 0 <= j < |keys| ==>
              Rows(entries, headers, cm, false).value[i][j] == ExpectedCell(entries[i], keys[j])
    decreases |entries|
  {
    if entries != [] {
      var tail := entries[1..];
      assert forall i :: 0 <= i < |tail| ==> tail[i] == entries[i + 1];
      CellsExpected(entries[0], keys, headers, cm);
      RowsExpected(tail, keys, headers, cm);
      var row := RowCells(entries[0], headers, cm, false).value;
      var rest := Rows(tail, headers, cm, false).value;
      assert Rows(entries, headers, cm, false) == Ok([row] + rest);
      forall i, j | 0 <= i < |entries| && 0 <= j < |keys|
        ensures Rows(entries, headers, cm, false).value[i][j] == ExpectedCell(entries[i], keys[j])
      {
        if i > 0 {
          assert ([row] + rest)[i] == rest[i - 1];
        }
      }
    }
  }

  /** With integer statuses and keys that read back from their headers, the corrected
      details never fail: one column per distinct key in first-seen order, one row per
      entry, the formatted status in the status column, and '' for every key an entry
      lacks. */
  lemma DetailsCells(log: OMap<seq<Entry>>, cm: CaseMap)
    requires log.keys != []
    requires IntStatuses(AllEntries(log.keys, log.items))
    requires CaseRoundTrips(cm, AllKeys(AllEntries(log.keys, log.items)))
    ensures var all := AllEntries(log.keys, log.items);
            var keys := Unique(AllKeys(all));
            var r := Details(log, cm);
            && r.Ok?
            && |r.value.headers| == |keys|
            && |r.value.rows| == |all|
            && forall i, j :: 0 <= i < |all| && 0 <= j < |keys| ==>
                 r.value.rows[i][j] == ExpectedCell(all[i], keys[j])
  {
    var all := AllEntries(log.keys, log.items);
    var keys := Unique(AllKeys(all));
    var headers := Headers(all, cm);
    assert forall j :: 0 <= j < |keys| ==> keys[j] in AllKeys(all);
    RowsExpected(all, keys, headers, cm);
  }

  /** An entry the term importer reports, with the term id it found. */
  function ReportedTerm(id: int): Entry {
    TermImporting.Entry(Int(id), Str("/news"), Str("N/A"), Created)
  }

  /** A log holding one file with one imported term. */
  function OneTermLog(id: int): OMap<seq<Entry>> {
    OMap(["terms.csv"], map["terms.csv" := [ReportedTerm(id)]])
  }

  /** As written, the details of any log holding a found term's integer id raise a
      TypeError at its id cell, while the corrected rendering shows the id. */
  lemma DetailsAsWrittenRejectsTermIds(cm: CaseMap, id: int)
    requires CaseRoundTrips(cm, TermImporting.EntryKeys)
    ensures DetailsAsWritten(OneTermLog(id), cm) == Err(TypeError(CellNotString))
    ensures Details(OneTermLog(id), cm).Ok?
    ensures Details(OneTermLog(id), cm).value.rows[0][0] == Int(id)
  {
    var log := OneTermLog(id);
    var all := AllEntries(log.keys, log.items);
    assert all == [ReportedTerm(id)];
    assert AllKeys(all) == TermImporting.EntryKeys;
    UniqueOfDistinct(TermImporting.EntryKeys);
    var keys := Unique(AllKeys(all));
    var headers := Headers(all, cm);
    assert cm.lower(headers[0]) == "id";
    DetailsCells(log, cm);
  }

  // ---------------------------------------------------------------------------------------
  // The log itself
  // ---------------------------------------------------------------------------------------

  class ImportLog {
    /** The entries of each file, by file path, in the order the files were first added. */
    var fileLogs: OMap<seq<Entry>>

    ghost predicate Valid()
      reads this
    {
      OrderedMap.Valid(fileLogs)
    }

    constructor ()
      ensures Valid() && fileLogs == Empty()
    {
      fileLogs := Empty();
    }

    /** add(): the file's entries replace any earlier ones; the other files and the order
        of the files are unchanged, and a new file goes last. */
    method Add(path: string, entries: seq<Entry>)
      requires Valid()
      modifies this
      ensures Valid() && fileLogs == Put(old(fileLogs), path, entries)
    {
      fileLogs := Put(fileLogs, path, entries);
    }

    /** calculateStats(): counts the entries one by one. */
    method CalculateStats(entries: seq<Entry>) returns (stats: Stats)
      ensures stats == StatsOf(entries)
    {
      stats := Initial(|entries|);
      var i := 0;
      while i < |entries|
        invariant 0 <= i <= |entries|
        invariant stats == Counted(|entries|, entries[..i])
      {
        assert entries[..i + 1][..i] == entries[..i];
        stats := Bump(stats, EntrySlot(entries[i]));
        i := i + 1;
      }
      assert entries[..i] == entries;
    }

    /** getSummary(): the stats of each file, in file order. */
    method GetSummary() returns (t: Table)
      requires Valid()
      ensures t == Summary(fileLogs)
    {
      var n := |fileLogs.keys|;
      var counted: seq<Stats> := [];
      var i := 0;
      while i < n
        invariant 0 <= i <= n
        invariant |counted| == i
        invariant forall j :: 0 <= j < i ==> counted[j] == StatsOf(fileLogs.items[fileLogs.keys[j]])
      {
        var path := fileLogs.keys[i];
        assert path in fileLogs.items;
        var stats := CalculateStats(fileLogs.items[path]);
        counted := counted + [stats];
        i := i + 1;
      }
      var keys := fileLogs.keys;
      var rows := seq(n, j requires 0 <= j < n => SummaryRow(keys[j], counted[j]));
      t := Table(SummaryHeaders, rows);
    }
  }
}
