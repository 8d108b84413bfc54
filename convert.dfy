/**
 * The converter that turns the files of an X-108 test pack into scenario
 * records: a tolerant normaliser for CSV rows, and the extraction that
 * takes JSON lists first, then CSV tables, then (time, IST, CMEC) tuples
 * found in Python sources, up to a limit.
 */
module Convert {
  import opened Wrappers
  import opened Values
  import Text

  /** A CSV row: column name to cell text. */
  type Row = map<string, string>

  /** A (time_elapsed, IST, CMEC) tuple found in a Python source. */
  type Triple = (real, real, real)

  /** One scenario of the output: the six keys of the JSON object. */
  datatype Record = Record(id: string, timeElapsed: real, ist: real, cmec: real, irreversible: bool, rawSource: string)

  /** The record as the JSON object the converter writes. */
  function AsDict(r: Record): (d: Dict)
    ensures d.Keys == {"id", "time_elapsed", "IST", "CMEC", "irreversible", "raw_source"}
    ensures d["id"] == VStr(r.id) && d["raw_source"] == VStr(r.rawSource)
    ensures d["time_elapsed"] == VFloat(r.timeElapsed) && d["IST"] == VFloat(r.ist) && d["CMEC"] == VFloat(r.cmec)
    ensures d["irreversible"] == VBool(r.irreversible)
  {
    map["id" := VStr(r.id), "time_elapsed" := VFloat(r.timeElapsed), "IST" := VFloat(r.ist),
        "CMEC" := VFloat(r.cmec), "irreversible" := VBool(r.irreversible), "raw_source" := VStr(r.rawSource)]
  }

  // ---------------------------------------------------------------- rows

  const TimeKeys: seq<string> := ["time_elapsed", "t", "elapsed", "elapsed_s", "seconds"]
  const IstKeys: seq<string> := ["IST", "ist", "integrity", "score_ist"]
  const CmecKeys: seq<string> := ["CMEC", "cmec", "criticality", "score_cmec"]
  const IrreversibleKeys: seq<string> := ["irreversible", "irrev", "is_irreversible"]
  const TrueWords: set<string> := {"true", "1", "yes", "y", "oui"}
  const FalseWords: set<string> := {"false", "0", "no", "n", "non"}

  /** The trimmed text of a cell. */
  function Cell(row: Row, key: string): string
    requires key in row
  {
    Text.Strip(row[key])
  }

  /**
   * The column is present, not blank and holds a number; `parse` is
   * `float(...)` on a trimmed cell, `None` where it raises.
   */
  predicate FloatUsable(row: Row, key: string, parse: string -> Option<real>) {
    key in row && Cell(row, key) != "" && parse(Cell(row, key)).Some?
  }

  function FloatOf(row: Row, key: string, parse: string -> Option<real>): real
    requires FloatUsable(row, key, parse)
  {
    parse(Cell(row, key)).value
  }

  /** Column `keys[a]` is the first of the candidates that holds a number. */
  predicate FirstFloat(row: Row, keys: seq<string>, a: int, parse: string -> Option<real>)
    requires 0 <= a < |keys|
  {
    FloatUsable(row, keys[a], parse) && forall b :: 0 <= b < a ==> !FloatUsable(row, keys[b], parse)
  }

  /** `f`: the number in the first candidate column that holds one, else the default. */
  function FloatField(row: Row, keys: seq<string>, default: real, parse: string -> Option<real>): real {
    if |keys| == 0 then default
    else if FloatUsable(row, keys[0], parse) then FloatOf(row, keys[0], parse)
    else FloatField(row, keys[1..], default, parse)
  }

  /** When no candidate column holds a number, `f` gives the default. */
  lemma {:induction false} FloatFieldDefault(row: Row, keys: seq<string>, default: real, parse: string -> Option<real>)
    requires forall a :: 0 <= a < |keys| ==> !FloatUsable(row, keys[a], parse)
    ensures FloatField(row, keys, default, parse) == default
  {
    if |keys| > 0 {
      assert !FloatUsable(row, keys[0], parse);
      forall a | 0 <= a < |keys| - 1
        ensures !FloatUsable(row, keys[1..][a], parse)
      {
        assert keys[1..][a] == keys[a + 1];
      }
      FloatFieldDefault(row, keys[1..], default, parse);
    }
  }

  /** `f` gives the number in the first candidate column that holds one. */
  lemma {:induction false} FloatFieldFirst(row: Row, keys: seq<string>, a: int, default: real, parse: string -> Option<real>)
    requires 0 <= a < |keys| && FirstFloat(row, keys, a, parse)
    ensures FloatField(row, keys, default, parse) == FloatOf(row, keys[a], parse)
    decreases a
  {
    if a > 0 {
      assert !FloatUsable(row, keys[0], parse);
      FirstFloatShifts(row, keys, a, parse);
      FloatFieldFirst(row, keys[1..], a - 1, default, parse);
    }
  }

  /** Past a first column that holds no number, the first usable column is found one place earlier in the rest. */
  lemma FirstFloatShifts(row: Row, keys: seq<string>, a: int, parse: string -> Option<real>)
    requires 1 <= a < |keys| && FirstFloat(row, keys, a, parse)
    ensures FirstFloat(row, keys[1..], a - 1, parse)
  {
    assert keys[1..][a - 1] == keys[a];
    forall b | 0 <= b < a - 1
      ensures !FloatUsable(row, keys[1..][b], parse)
    {
      assert keys[1..][b] == keys[b + 1];
    }
  }

  /** The lower-cased trimmed text of a cell. */
  function Word(row: Row, key: string): string
    requires key in row
  {
    Text.Lower(Cell(row, key))
  }

  /** The column is present, not blank and holds one of the recognised yes/no words. */
  predicate BoolUsable(row: Row, key: string) {
    key in row && Cell(row, key) != "" && (Word(row, key) in TrueWords || Word(row, key) in FalseWords)
  }

  /** Column `keys[a]` is the first of the candidates that holds a yes/no word. */
  predicate FirstBool(row: Row, keys: seq<string>, a: int)
    requires 0 <= a < |keys|
  {
    BoolUsable(row, keys[a]) && forall b :: 0 <= b < a ==> !BoolUsable(row, keys[b])
  }

  /** `b`: the truth value in the first candidate column that holds a recognised word, else the default. */
  function BoolField(row: Row, keys: seq<string>, default: bool): bool {
    if |keys| == 0 then default
    else if BoolUsable(row, keys[0]) then Word(row, keys[0]) in TrueWords
    else BoolField(row, keys[1..], default)
  }

  /** When no candidate column holds a yes/no word, `b` gives the default. */
  lemma {:induction false} BoolFieldDefault(row: Row, keys: seq<string>, default: bool)
    requires forall a :: 0 <= a < |keys| ==> !BoolUsable(row, keys[a])
    ensures BoolField(row, keys, default) == default
  {
    if |keys| > 0 {
      assert !BoolUsable(row, keys[0]);
      forall a | 0 <= a < |keys| - 1
        ensures !BoolUsable(row, keys[1..][a])
      {
        assert keys[1..][a] == keys[a + 1];
      }
      BoolFieldDefault(row, keys[1..], default);
    }
  }

  /** `b` reads the first candidate column that holds a yes/no word: true exactly for a yes word. */
  lemma {:induction false} BoolFieldFirst(row: Row, keys: seq<string>, a: int, default: bool)
    requires 0 <= a < |keys| && FirstBool(row, keys, a)
    ensures BoolField(row, keys, default) == (Word(row, keys[a]) in TrueWords)
    decreases a
  {
    if a > 0 {
      assert !BoolUsable(row, keys[0]);
      FirstBoolShifts(row, keys, a);
      BoolFieldFirst(row, keys[1..], a - 1, default);
    }
  }

  /** Past a first column that holds no yes/no word, the first usable column is found one place earlier in the rest. */
  lemma FirstBoolShifts(row: Row, keys: seq<string>, a: int)
    requires 1 <= a < |keys| && FirstBool(row, keys, a)
    ensures FirstBool(row, keys[1..], a - 1)
  {
    assert keys[1..][a - 1] == keys[a];
    forall b | 0 <= b < a - 1
      ensures !BoolUsable(row, keys[1..][b])
    {
      assert keys[1..][b] == keys[b + 1];
    }
  }

  /** No word is both a yes and a no: a recognised "no" gives `false`. */
  lemma YesAndNoAreDisjoint()
    ensures TrueWords * FalseWords == {}
  {
  }

  /** A column whose value is truthy: present and not the empty string. */
  predicate Filled(row: Row, key: string) {
    key in row && row[key] != ""
  }

  /** The id: the first filled of `id`, `scenario` and `name`, else `"source#idx"`. */
  function RowId(row: Row, idx: nat, source: string): (id: string)
    ensures id != ""
    ensures Filled(row, "id") ==> id == row["id"]
    ensures !Filled(row, "id") && Filled(row, "scenario") ==> id == row["scenario"]
    ensures !Filled(row, "id") && !Filled(row, "scenario") && Filled(row, "name") ==> id == row["name"]
    ensures !Filled(row, "id") && !Filled(row, "scenario") && !Filled(row, "name")
            ==> id == source + "#" + Text.NatToString(idx)
  {
    if Filled(row, "id") then row["id"]
    else if Filled(row, "scenario") then row["scenario"]
    else if Filled(row, "name") then row["name"]
    else source + "#" + Text.NatToString(idx)
  }

  /** `_normalize_row`. */
  function NormalizeRow(row: Row, idx: nat, source: string, parse: string -> Option<real>): (r: Record)
    ensures r.id != "" && r.rawSource == source
  {
    Record(RowId(row, idx, source),
           FloatField(row, TimeKeys, 0.0, parse), FloatField(row, IstKeys, 0.0, parse), FloatField(row, CmecKeys, 0.0, parse),
           BoolField(row, IrreversibleKeys, true), source)
  }

  /** A row with none of the expected columns gets the defaults: no time elapsed, zero scores, irreversible. */
  lemma NormalizeEmptyRow(idx: nat, source: string, parse: string -> Option<real>)
    ensures NormalizeRow(map[], idx, source, parse)
         == Record(source + "#" + Text.NatToString(idx), 0.0, 0.0, 0.0, true, source)
  {
    var row: Row := map[];
    FloatFieldDefault(row, TimeKeys, 0.0, parse);
    FloatFieldDefault(row, IstKeys, 0.0, parse);
    FloatFieldDefault(row, CmecKeys, 0.0, parse);
    BoolFieldDefault(row, IrreversibleKeys, true);
  }

  /** A recognised "no" in the first irreversibility column makes the scenario reversible. */
  lemma ReversibleWhenSaidSo(row: Row)
    requires BoolUsable(row, "irreversible") && Word(row, "irreversible") in FalseWords
    ensures !BoolField(row, IrreversibleKeys, true)
  {
    assert FirstBool(row, IrreversibleKeys, 0);
    BoolFieldFirst(row, IrreversibleKeys, 0, true);
    YesAndNoAreDisjoint();
  }

  // ---------------------------------------------------------------- zip members

  predicate EndsWith(s: string, suffix: string) {
    |suffix| <= |s| && s[|s| - |suffix|..] == suffix
  }

  /** `sub in s`. */
  predicate Contains(s: string, sub: string)
    decreases |s|
  {
    |sub| <= |s| && (s[..|sub|] == sub || Contains(s[1..], sub))
  }

  predicate IsJsonName(name: string) {
    EndsWith(Text.Lower(name), ".json")
  }

  predicate IsPyName(name: string) {
    EndsWith(Text.Lower(name), ".py")
  }

  /** The members read as JSON, in archive order. */
  function JsonCandidates(members: seq<string>): (r: seq<string>)
    ensures forall m :: m in r <==> m in members && IsJsonName(m)
  {
    if |members| == 0 then []
    else (if IsJsonName(members[0]) then [members[0]] else []) + JsonCandidates(members[1..])
  }

  /** The members read as Python sources, in archive order. */
  function PyCandidates(members: seq<string>): (r: seq<string>)
    ensures forall m :: m in r <==> m in members && IsPyName(m)
  {
    if |members| == 0 then []
    else (if IsPyName(members[0]) then [members[0]] else []) + PyCandidates(members[1..])
  }

  /** How a member is read as a table: plain CSV, gzip-compressed CSV, or not at all. */
  function CsvKind(name: string): Option<bool> {
    var fn := Text.Lower(name);
    if EndsWith(fn, ".csv") then Some(false)
    else if (EndsWith(fn, ".csv.gz") || EndsWith(fn, ".gz")) && Contains(fn, "csv") then Some(true)
    else None
  }

  /** The members read as tables, each with whether it is compressed, in archive order. */
  function CsvCandidates(members: seq<string>): (r: seq<(string, bool)>)
    ensures forall k :: 0 <= k < |r| ==> r[k].0 in members && CsvKind(r[k].0) == Some(r[k].1)
    ensures forall m :: m in members && CsvKind(m).Some? ==> (m, CsvKind(m).value) in r
  {
    if |members| == 0 then []
    else
      var kind := CsvKind(members[0]);
      (if kind.Some? then [(members[0], kind.value)] else []) + CsvCandidates(members[1..])
  }

  /** What the zip offers, already read: `None` stands for a read or parse that raised. */
  datatype Pack = Pack(
    zipName: string,
    members: seq<string>,
    readJson: string -> Option<Value>,
    readCsv: (string, bool) -> Option<seq<Row>>,
    readPy: string -> Option<seq<Triple>>)

  /**
   * The built-ins the converter applies to values it did not produce:
   * `str(...)` of a non-string JSON value, and `float(...)` of a trimmed CSV
   * cell (`None` where it raises).
   */
  datatype Builtins = Builtins(show: Value -> string, parse: string -> Option<real>)

  /** `"zip::member"`, the raw source of every record taken from a member. */
  function SourceOf(pack: Pack, name: string): string {
    pack.zipName + "::" + name
  }

  // ---------------------------------------------------------------- extraction

  /** The state of the extraction: the records so far, and whether it has returned. */
  datatype Scan = Scan(found: seq<Record>, done: bool)

  /**
   * One item of a JSON list: nothing for a non-dict, else a record whose
   * numbers go through `float(...)`, which raises on a non-number.
   */
  function JsonItem(item: Value, name: string, i: nat, source: string, py: Builtins): (r: Result<Option<Record>>)
    ensures !item.VDict? ==> r == Ok(None)
    ensures item.VDict? ==> (r.Ok? <==> (ToFloat(Get(item.entries, "time_elapsed", Get(item.entries, "t", VFloat(0.0)))).Ok?
                                       && ToFloat(Get(item.entries, "IST", Get(item.entries, "ist", VFloat(0.0)))).Ok?
                                       && ToFloat(Get(item.entries, "CMEC", Get(item.entries, "cmec", VFloat(0.0)))).Ok?))
    ensures r.Ok? && item.VDict? ==> r.value.Some? && r.value.value.rawSource == source
  {
    if !item.VDict? then Ok(None)
    else
      var d := item.entries;
      var t :- ToFloat(Get(d, "time_elapsed", Get(d, "t", VFloat(0.0))));
      var ist :- ToFloat(Get(d, "IST", Get(d, "ist", VFloat(0.0))));
      var cmec :- ToFloat(Get(d, "CMEC", Get(d, "cmec", VFloat(0.0))));
      var id := Format(Get(d, "id", VStr(name + "#" + Text.NatToString(i))), py.show);
      Ok(Some(Record(id, t, ist, cmec, Truthy(Get(d, "irreversible", VBool(true))), source)))
  }

  /**
   * The items of one JSON list from position `i` on: a record is appended
   * and then the limit is checked; an item that raises abandons the rest
   * of the list. With `capFirst` the limit is checked before appending.
   */
  function JsonItemsFrom(items: seq<Value>, i: nat, name: string, source: string, found: seq<Record>,
                         limit: int, py: Builtins, capFirst: bool): (s: Scan)
    requires i <= |items|
    decreases |items| - i
  {
    if i == |items| then Scan(found, false)
    else if capFirst && |found| >= limit then Scan(found, true)
    else match JsonItem(items[i], name, i, source, py)
      case Raise(_) => Scan(found, false)
      case Ok(None) => JsonItemsFrom(items, i + 1, name, source, found, limit, py, capFirst)
      case Ok(Some(rec)) =>
        if |found + [rec]| >= limit then Scan(found + [rec], true)
        else JsonItemsFrom(items, i + 1, name, source, found + [rec], limit, py, capFirst)
  }

  /** One JSON member: a list is scanned, anything else (or a failed parse) adds nothing. */
  function JsonFile(pack: Pack, name: string, found: seq<Record>, limit: int, py: Builtins, capFirst: bool): Scan {
    var parsed := pack.readJson(name);
    if parsed.Some? && parsed.value.VList? then
      JsonItemsFrom(parsed.value.items, 0, name, SourceOf(pack, name), found, limit, py, capFirst)
    else Scan(found, false)
  }

  /** `[f(row, i) for i, row in enumerate(rows)]`. */
  function Enumerated<T>(rows: seq<T>, f: (T, nat) -> Record): (r: seq<Record>)
    ensures |r| == |rows| && forall i :: 0 <= i < |rows| ==> r[i] == f(rows[i], i)
  {
    seq(|rows|, i requires 0 <= i < |rows| => f(rows[i], i))
  }

  /** The normaliser of the rows of one table. */
  function Normalizer(source: string, parse: string -> Option<real>): (Row, nat) -> Record {
    (row: Row, i: nat) => NormalizeRow(row, i, source, parse)
  }

  /** `rows[:max(0, limit - len(scenarios))]`: how many rows still fit. */
  function Room(available: int, found: seq<Record>, limit: int): (n: nat)
    requires available >= 0
    ensures n <= available
    ensures n < available ==> |found| + n >= limit
    ensures |found| + n <= limit || n == 0
  {
    var want := if limit - |found| > 0 then limit - |found| else 0;
    if want < available then want else available
  }

  /** One table: the rows that fit are normalised and appended, then the limit is checked. */
  function CsvFile(pack: Pack, file: (string, bool), found: seq<Record>, limit: int, parse: string -> Option<real>): Scan {
    var rows := pack.readCsv(file.0, file.1);
    if rows.Some? then
      var n := Room(|rows.value|, found, limit);
      var all := found + Enumerated(rows.value[..n], Normalizer(SourceOf(pack, file.0), parse));
      Scan(all, |all| >= limit)
    else Scan(found, false)
  }

  /** The record of one tuple found in a Python source: always irreversible. */
  function TripleRecord(pack: Pack, name: string, i: nat, t: Triple): Record {
    Record(SourceOf(pack, name) + "#" + Text.NatToString(i), t.0, t.1, t.2, true, SourceOf(pack, name))
  }

  function TripleRecorder(pack: Pack, name: string): (Triple, nat) -> Record {
    (t: Triple, i: nat) => TripleRecord(pack, name, i, t)
  }

  /** One Python source: the tuples that fit are appended, then the limit is checked. */
  function PyFile(pack: Pack, name: string, found: seq<Record>, limit: int): Scan {
    var triples := pack.readPy(name);
    if triples.Some? then
      var n := Room(|triples.value|, found, limit);
      var all := found + Enumerated(triples.value[..n], TripleRecorder(pack, name));
      Scan(all, |all| >= limit)
    else Scan(found, false)
  }

  /** The members of one kind in turn, until one of them returns. */
  function JsonFiles(pack: Pack, names: seq<string>, found: seq<Record>, limit: int, py: Builtins, capFirst: bool): Scan
  {
    if |names| == 0 then Scan(found, false)
    else
      var s := JsonFile(pack, names[0], found, limit, py, capFirst);
      if s.done then s else JsonFiles(pack, names[1..], s.found, limit, py, capFirst)
  }

  function CsvFiles(pack: Pack, files: seq<(string, bool)>, found: seq<Record>, limit: int, parse: string -> Option<real>): Scan
  {
    if |files| == 0 then Scan(found, false)
    else
      var s := CsvFile(pack, files[0], found, limit, parse);
      if s.done then s else CsvFiles(pack, files[1..], s.found, limit, parse)
  }

  function PyFiles(pack: Pack, names: seq<string>, found: seq<Record>, limit: int): Scan
  {
    if |names| == 0 then Scan(found, false)
    else
      var s := PyFile(pack, names[0], found, limit);
      if s.done then s else PyFiles(pack, names[1..], s.found, limit)
  }

  /** The three stages, each starting from what the previous one found. */
  function ExtractWith(pack: Pack, limit: int, py: Builtins, capFirst: bool): seq<Record> {
    var s1 := JsonFiles(pack, JsonCandidates(pack.members), [], limit, py, capFirst);
    if s1.done then s1.found
    else
      var s2 := CsvFiles(pack, CsvCandidates(pack.members), s1.found, limit, py.parse);
      if s2.done then s2.found
      else PyFiles(pack, PyCandidates(pack.members), s2.found, limit).found
  }

  /** `extract_scenarios_from_zip` as written. */
  function Extract(pack: Pack, limit: int, py: Builtins): seq<Record> {
    ExtractWith(pack, limit, py, false)
  }

  /** The extraction with the limit also checked before a JSON record is appended. */
  function ExtractCapped(pack: Pack, limit: int, py: Builtins): seq<Record> {
    ExtractWith(pack, limit, py, true)
  }

  // ---------------------------------------------------------------- bounds

  /** What holds between stages: fewer records than the limit, or none at all. */
  predicate Open(found: seq<Record>, limit: int) {
    |found| < limit || |found| == 0
  }

  /** The most records the extraction as written can return. */
  function Bound(limit: int): nat {
    if limit >= 1 then limit else 1
  }

  /** A scan that continues stays open; a finished one is within the bound. */
  predicate Kept(s: Scan, limit: int) {
    |s.found| <= Bound(limit) && (!s.done ==> Open(s.found, limit))
  }

  lemma {:induction false} JsonItemsKept(items: seq<Value>, i: nat, name: string, source: string, found: seq<Record>,
                                         limit: int, py: Builtins, capFirst: bool)
    requires i <= |items| && Open(found, limit)
    ensures Kept(JsonItemsFrom(items, i, name, source, found, limit, py, capFirst), limit)
    decreases |items| - i
  {
    if i < |items| && !(capFirst && |found| >= limit) {
      match JsonItem(items[i], name, i, source, py)
      case Raise(_) =>
      case Ok(None) => JsonItemsKept(items, i + 1, name, source, found, limit, py, capFirst);
      case Ok(Some(rec)) =>
        if |found + [rec]| < limit {
          JsonItemsKept(items, i + 1, name, source, found + [rec], limit, py, capFirst);
        }
    }
  }

  lemma {:induction false} JsonFilesKept(pack: Pack, names: seq<string>, found: seq<Record>, limit: int,
                                         py: Builtins, capFirst: bool)
    requires Open(found, limit)
    ensures Kept(JsonFiles(pack, names, found, limit, py, capFirst), limit)
  {
    if |names| > 0 {
      var parsed := pack.readJson(names[0]);
      if parsed.Some? && parsed.value.VList? {
        JsonItemsKept(parsed.value.items, 0, names[0], SourceOf(pack, names[0]), found, limit, py, capFirst);
      }
      var s := JsonFile(pack, names[0], found, limit, py, capFirst);
      if !s.done {
        JsonFilesKept(pack, names[1..], s.found, limit, py, capFirst);
      }
    }
  }

  lemma {:induction false} CsvFilesKept(pack: Pack, files: seq<(string, bool)>, found: seq<Record>, limit: int, parse: string -> Option<real>)
    requires Open(found, limit)
    ensures Kept(CsvFiles(pack, files, found, limit, parse), limit)
  {
    if |files| > 0 {
      var s := CsvFile(pack, files[0], found, limit, parse);
      if !s.done {
        CsvFilesKept(pack, files[1..], s.found, limit, parse);
      }
    }
  }

  lemma {:induction false} PyFilesKept(pack: Pack, names: seq<string>, found: seq<Record>, limit: int)
    requires Open(found, limit)
    ensures Kept(PyFiles(pack, names, found, limit), limit)
  {
    if |names| > 0 {
      var s := PyFile(pack, names[0], found, limit);
      if !s.done {
        PyFilesKept(pack, names[1..], s.found, limit);
      }
    }
  }

  /** Never more than `limit` records for a positive limit; at most one otherwise. */
  lemma ExtractBound(pack: Pack, limit: int, py: Builtins, capFirst: bool)
    ensures |ExtractWith(pack, limit, py, capFirst)| <= Bound(limit)
  {
    JsonFilesKept(pack, JsonCandidates(pack.members), [], limit, py, capFirst);
    var s1 := JsonFiles(pack, JsonCandidates(pack.members), [], limit, py, capFirst);
    if !s1.done {
      CsvFilesKept(pack, CsvCandidates(pack.members), s1.found, limit, py.parse);
      var s2 := CsvFiles(pack, CsvCandidates(pack.members), s1.found, limit, py.parse);
      if !s2.done {
        PyFilesKept(pack, PyCandidates(pack.members), s2.found, limit);
      }
    }
  }

  /** A pack with one JSON member holding a list of one empty object. */
  function OneObjectPack(): Pack {
    Pack("pack.zip", ["s.json"],
         name => if name == "s.json" then Some(VList([VDict(map[])])) else None,
         (name, gz) => None,
         name => None)
  }

  /** As written, a limit of 0 still returns one scenario when a JSON list is found. */
  lemma ZeroLimitReturnsOne(py: Builtins)
    ensures |Extract(OneObjectPack(), 0, py)| == 1
  {
    var pack := OneObjectPack();
    assert Text.Lower("s.json") == "s.json";
    assert JsonCandidates(pack.members) == ["s.json"];
    var items := [VDict(map[])];
    assert JsonItem(items[0], "s.json", 0, SourceOf(pack, "s.json"), py).Ok?;
    assert |JsonItemsFrom(items, 0, "s.json", SourceOf(pack, "s.json"), [], 0, py, false).found| == 1;
  }

  /** Checking the limit first, the extraction never returns more than `max(0, limit)` records. */
  lemma {:induction false} CappedItems(items: seq<Value>, i: nat, name: string, source: string, found: seq<Record>,
                                       limit: int, py: Builtins)
    requires i <= |items| && Open(found, limit)
    ensures var s := JsonItemsFrom(items, i, name, source, found, limit, py, true);
            (|s.found| <= limit || |s.found| == 0) && (!s.done ==> Open(s.found, limit))
    decreases |items| - i
  {
    if i < |items| && |found| < limit {
      match JsonItem(items[i], name, i, source, py)
      case Raise(_) =>
      case Ok(None) => CappedItems(items, i + 1, name, source, found, limit, py);
      case Ok(Some(rec)) =>
        if |found + [rec]| < limit {
          CappedItems(items, i + 1, name, source, found + [rec], limit, py);
        }
    }
  }

  lemma {:induction false} CappedJsonFiles(pack: Pack, names: seq<string>, found: seq<Record>, limit: int, py: Builtins)
    requires Open(found, limit)
    ensures var s := JsonFiles(pack, names, found, limit, py, true);
            (|s.found| <= limit || |s.found| == 0) && (!s.done ==> Open(s.found, limit))
  {
    if |names| > 0 {
      var parsed := pack.readJson(names[0]);
      if parsed.Some? && parsed.value.VList? {
        CappedItems(parsed.value.items, 0, names[0], SourceOf(pack, names[0]), found, limit, py);
      }
      var s := JsonFile(pack, names[0], found, limit, py, true);
      if !s.done {
        CappedJsonFiles(pack, names[1..], s.found, limit, py);
      }
    }
  }

  /** A table or a source read with no room left adds nothing. */
  lemma {:induction false} FullCsvFiles(pack: Pack, files: seq<(string, bool)>, found: seq<Record>, limit: int, parse: string -> Option<real>)
    requires |found| == 0 && limit <= 0
    ensures CsvFiles(pack, files, found, limit, parse).found == []
  {
    if |files| > 0 {
      var s := CsvFile(pack, files[0], found, limit, parse);
      if !s.done {
        FullCsvFiles(pack, files[1..], s.found, limit, parse);
      }
    }
  }

  lemma {:induction false} FullPyFiles(pack: Pack, names: seq<string>, found: seq<Record>, limit: int)
    requires |found| == 0 && limit <= 0
    ensures PyFiles(pack, names, found, limit).found == []
  {
    if |names| > 0 {
      var s := PyFile(pack, names[0], found, limit);
      if !s.done {
        FullPyFiles(pack, names[1..], s.found, limit);
      }
    }
  }

  lemma ExtractCappedWithinLimit(pack: Pack, limit: int, py: Builtins)
    ensures |ExtractCapped(pack, limit, py)| <= if limit >= 0 then limit else 0
  {
    ExtractBound(pack, limit, py, true);
    if limit <= 0 {
      CappedJsonFiles(pack, JsonCandidates(pack.members), [], limit, py);
      var s1 := JsonFiles(pack, JsonCandidates(pack.members), [], limit, py, true);
      if !s1.done {
        FullCsvFiles(pack, CsvCandidates(pack.members), s1.found, limit, py.parse);
        var s2 := CsvFiles(pack, CsvCandidates(pack.members), s1.found, limit, py.parse);
        if !s2.done {
          FullPyFiles(pack, PyCandidates(pack.members), s2.found, limit);
        }
      }
    }
  }

  /** For a positive limit the extra check never fires: both extractions agree. */
  lemma {:induction false} CapAgreesItems(items: seq<Value>, i: nat, name: string, source: string, found: seq<Record>,
                                          limit: int, py: Builtins)
    requires i <= |items| && |found| < limit
    ensures JsonItemsFrom(items, i, name, source, found, limit, py, true)
         == JsonItemsFrom(items, i, name, source, found, limit, py, false)
    decreases |items| - i
  {
    if i < |items| {
      match JsonItem(items[i], name, i, source, py)
      case Raise(_) =>
      case Ok(None) => CapAgreesItems(items, i + 1, name, source, found, limit, py);
      case Ok(Some(rec)) =>
        if |found + [rec]| < limit {
          CapAgreesItems(items, i + 1, name, source, found + [rec], limit, py);
        }
    }
  }

  lemma {:induction false} CapAgreesFiles(pack: Pack, names: seq<string>, found: seq<Record>, limit: int, py: Builtins)
    requires |found| < limit
    ensures JsonFiles(pack, names, found, limit, py, true) == JsonFiles(pack, names, found, limit, py, false)
  {
    if |names| > 0 {
      var parsed := pack.readJson(names[0]);
      if parsed.Some? && parsed.value.VList? {
        CapAgreesItems(parsed.value.items, 0, names[0], SourceOf(pack, names[0]), found, limit, py);
        JsonItemsKept(parsed.value.items, 0, names[0], SourceOf(pack, names[0]), found, limit, py, false);
      }
      var s := JsonFile(pack, names[0], found, limit, py, false);
      if !s.done {
        CapAgreesFiles(pack, names[1..], s.found, limit, py);
      }
    }
  }

  lemma ExtractCappedAgrees(pack: Pack, limit: int, py: Builtins)
    requires limit >= 1
    ensures ExtractCapped(pack, limit, py) == Extract(pack, limit, py)
  {
    CapAgreesFiles(pack, JsonCandidates(pack.members), [], limit, py);
  }

  // ---------------------------------------------------------------- the loops

  /** The items of one JSON list, appended until one raises or the limit is reached. */
  method ScanJsonList(items: seq<Value>, name: string, source: string, start: seq<Record>, limit: int, py: Builtins)
    returns (s: Scan)
    ensures s == JsonItemsFrom(items, 0, name, source, start, limit, py, false)
  {
    var scenarios := start;
    var i := 0;
    while i < |items|
      invariant 0 <= i <= |items|
      invariant JsonItemsFrom(items, i, name, source, scenarios, limit, py, false)
             == JsonItemsFrom(items, 0, name, source, start, limit, py, false)
    {
      var item := JsonItem(items[i], name, i, source, py);
      if item.Raise? {
        return Scan(scenarios, false);
      }
      if item.value.Some? {
        scenarios := scenarios + [item.value.value];
        if |scenarios| >= limit {
          return Scan(scenarios, true);
        }
      }
      i := i + 1;
    }
    s := Scan(scenarios, false);
  }

  /** The JSON pass: every JSON member in turn. */
  method ScanJsonFiles(pack: Pack, names: seq<string>, limit: int, py: Builtins) returns (s: Scan)
    ensures s == JsonFiles(pack, names, [], limit, py, false)
  {
    var scenarios := [];
    var j := 0;
    while j < |names|
      invariant 0 <= j <= |names|
      invariant JsonFiles(pack, names[j..], scenarios, limit, py, false) == JsonFiles(pack, names, [], limit, py, false)
    {
      assert names[j..][0] == names[j] && names[j..][1..] == names[j + 1..];
      var parsed := pack.readJson(names[j]);
      if parsed.Some? && parsed.value.VList? {
        var t := ScanJsonList(parsed.value.items, names[j], SourceOf(pack, names[j]), scenarios, limit, py);
        if t.done {
          return t;
        }
        scenarios := t.found;
      }
      j := j + 1;
    }
    assert names[j..] == [];
    s := Scan(scenarios, false);
  }

  /** `scenarios.append(f(row, i))` for every row, in order. */
  method AppendEnumerated<T>(start: seq<Record>, rows: seq<T>, f: (T, nat) -> Record) returns (scenarios: seq<Record>)
    ensures scenarios == start + Enumerated(rows, f)
  {
    scenarios := start;
    for i := 0 to |rows|
      invariant scenarios == start + Enumerated(rows[..i], f)
    {
      assert Enumerated(rows[..i + 1], f) == Enumerated(rows[..i], f) + [f(rows[i], i)];
      scenarios := scenarios + [f(rows[i], i)];
    }
    assert rows[..|rows|] == rows;
  }

  /** The CSV pass: the rows that fit from every table in turn. */
  method ScanCsvFiles(pack: Pack, files: seq<(string, bool)>, start: seq<Record>, limit: int, parse: string -> Option<real>)
    returns (s: Scan)
    ensures s == CsvFiles(pack, files, start, limit, parse)
  {
    var scenarios := start;
    var j := 0;
    while j < |files|
      invariant 0 <= j <= |files|
      invariant CsvFiles(pack, files[j..], scenarios, limit, parse) == CsvFiles(pack, files, start, limit, parse)
    {
      assert files[j..][0] == files[j] && files[j..][1..] == files[j + 1..];
      var rows := pack.readCsv(files[j].0, files[j].1);
      if rows.Some? {
        var n := Room(|rows.value|, scenarios, limit);
        scenarios := AppendEnumerated(scenarios, rows.value[..n], Normalizer(SourceOf(pack, files[j].0), parse));
        if |scenarios| >= limit {
          return Scan(scenarios, true);
        }
      }
      j := j + 1;
    }
    assert files[j..] == [];
    s := Scan(scenarios, false);
  }

  /** The Python pass: the tuples that fit from every source in turn. */
  method ScanPyFiles(pack: Pack, names: seq<string>, start: seq<Record>, limit: int) returns (s: Scan)
    ensures s == PyFiles(pack, names, start, limit)
  {
    var scenarios := start;
    var j := 0;
    while j < |names|
      invariant 0 <= j <= |names|
      invariant PyFiles(pack, names[j..], scenarios, limit) == PyFiles(pack, names, start, limit)
    {
      assert names[j..][0] == names[j] && names[j..][1..] == names[j + 1..];
      var triples := pack.readPy(names[j]);
      if triples.Some? {
        var n := Room(|triples.value|, scenarios, limit);
        scenarios := AppendEnumerated(scenarios, triples.value[..n], TripleRecorder(pack, names[j]));
        if |scenarios| >= limit {
          return Scan(scenarios, true);
        }
      }
      j := j + 1;
    }
    assert names[j..] == [];
    s := Scan(scenarios, false);
  }

  /** `extract_scenarios_from_zip`: the three passes, returning as soon as one reaches the limit. */
  method ExtractScenariosFromZip(pack: Pack, limit: int, py: Builtins) returns (scenarios: seq<Record>)
    ensures scenarios == Extract(pack, limit, py)
    ensures |scenarios| <= Bound(limit)
  {
    ExtractBound(pack, limit, py, false);
    var s := ScanJsonFiles(pack, JsonCandidates(pack.members), limit, py);
    if s.done {
      return s.found;
    }
    s := ScanCsvFiles(pack, CsvCandidates(pack.members), s.found, limit, py.parse);
    if s.done {
      return s.found;
    }
    s := ScanPyFiles(pack, PyCandidates(pack.members), s.found, limit);
    scenarios := s.found;
  }
}
