/**
 * app/pipeline/fetch_twse.py: the TWSE daily quote fetcher. Starting today it
 * looks back day by day, tries the rwd endpoint before the legacy one, keeps
 * the first payload that looks like a real trading day, and saves it under
 * data/inbound as `twse_MI_INDEX_<YYYYMMDD>.json` with its source recorded.
 *
 * The two HTTP fetches are parameters: a `None` is a fetch that raised.
 * `json.dumps` is the parameter `dump`.
 */
module FetchTwse {
  import opened Wrappers
  import opened Text
  import opened JsonValue
  import opened Dates
  import PrepareInput

  // ---------------------------------------------------------------------------
  // _looks_ok
  // ---------------------------------------------------------------------------

  /** `str(payload.get("stat", "")).strip()`. */
  function StatOf(p: seq<Field>): string {
    match Lookup(p, "stat")
    case Some(v) => Strip(Str(v))
    case None => ""
  }

  /** The stat verdict: "OK" in any case, "成功", or no stat at all. */
  predicate StatOk(stat: string) {
    Contains(Upper(stat), "OK") || Contains(stat, "成功") || stat == ""
  }

  /** A table dict whose `data` is a non-empty list. */
  predicate TableHasData(t: Json) {
    t.JObj? && match Lookup(t.fields, "data")
               case Some(JArr(d)) => d != []
               case _ => false
  }

  /** Some table of the rwd `tables` list has data. */
  predicate AnyTableData(p: seq<Field>) {
    match Lookup(p, "tables")
    case Some(JArr(ts)) => exists i :: 0 <= i < |ts| && TableHasData(ts[i])
    case _ => false
  }

  /** A legacy `data*` entry holding a non-empty list. */
  predicate DataEntry(f: Field) {
    StartsWith(f.key, "data") && f.val.JArr? && f.val.items != []
  }

  predicate HasAnyData(p: seq<Field>) {
    exists i :: 0 <= i < |p| && DataEntry(p[i])
  }

  /** `_looks_ok`: the first table with data settles it by the stat verdict; without one the legacy lists must have data too. */
  function LooksOk(p: seq<Field>): bool {
    var ok := StatOk(StatOf(p));
    match Lookup(p, "tables")
    case Some(JArr(ts)) =>
      if exists i :: 0 <= i < |ts| && TableHasData(ts[i]) then ok else ok && HasAnyData(p)
    case _ => ok && HasAnyData(p)
  }

  /** A payload is accepted only with a good stat, and then exactly when a table or a legacy list has data. */
  lemma LooksOkMeans(p: seq<Field>)
    ensures LooksOk(p) <==> StatOk(StatOf(p)) && (AnyTableData(p) || HasAnyData(p))
  {
  }

  /** What `find_latest` accepts: a dict that looks ok (anything else raises inside the `try` and is skipped). */
  predicate Accepts(r: Option<Json>) {
    r.Some? && r.value.JObj? && LooksOk(r.value.fields)
  }

  // ---------------------------------------------------------------------------
  // find_latest
  // ---------------------------------------------------------------------------

  datatype Source = Rwd | Exchange

  function SourceName(s: Source): string {
    match s
    case Rwd => "rwd"
    case Exchange => "exchangeReport"
  }

  /** The outcome of the search: a payload, the `RuntimeError` after every attempt failed, or a date before year 1. */
  datatype Search = Found(date: Date, payload: seq<Field>, source: Source) | Exhausted | Overflow

  /** The search from look-back day `i` on. */
  function SearchFrom(today: Date, i: nat, maxLookback: int,
                      rwd: Date -> Option<Json>, legacy: Date -> Option<Json>): (r: Search)
    requires Valid(today)
    ensures r.Found? ==> Valid(r.date)
    decreases maxLookback + 1 - i
  {
    if i > maxLookback then Exhausted
    else match Back(today, i)
      case None => Overflow
      case Some(d) =>
        if Accepts(rwd(d)) then Found(d, rwd(d).value.fields, Rwd)
        else if Accepts(legacy(d)) then Found(d, legacy(d).value.fields, Exchange)
        else SearchFrom(today, i + 1, maxLookback, rwd, legacy)
  }

  /** Neither endpoint gave an acceptable payload for day `d`. */
  predicate DayFails(d: Date, rwd: Date -> Option<Json>, legacy: Date -> Option<Json>) {
    !Accepts(rwd(d)) && !Accepts(legacy(d))
  }

  /** Every look-back day from `i` up to but not including `k` exists and failed on both endpoints. */
  predicate FailsBetween(today: Date, i: int, k: int, rwd: Date -> Option<Json>, legacy: Date -> Option<Json>)
    requires Valid(today)
  {
    forall j: nat :: i <= j < k ==> Back(today, j).Some? && DayFails(Back(today, j).value, rwd, legacy)
  }

  /** The payload kept for a found day: rwd's when it was acceptable, the legacy one's otherwise. */
  predicate Answers(r: Search, rwd: Date -> Option<Json>, legacy: Date -> Option<Json>)
    requires r.Found?
  {
    if r.source == Rwd then Accepts(rwd(r.date)) && rwd(r.date).value.fields == r.payload
    else !Accepts(rwd(r.date)) && Accepts(legacy(r.date)) && legacy(r.date).value.fields == r.payload
  }

  /**
   * A found payload is the first acceptable attempt: days from `i` on,
   * newest first, rwd before legacy.
   */
  lemma {:induction false} SearchFindsFirst(today: Date, i: nat, maxLookback: int,
                                            rwd: Date -> Option<Json>, legacy: Date -> Option<Json>)
    requires Valid(today)
    requires SearchFrom(today, i, maxLookback, rwd, legacy).Found?
    ensures var r := SearchFrom(today, i, maxLookback, rwd, legacy);
            Answers(r, rwd, legacy) &&
            exists k: nat :: i <= k <= maxLookback && Back(today, k) == Some(r.date) && FailsBetween(today, i, k, rwd, legacy)
    decreases maxLookback + 1 - i
  {
    var r := SearchFrom(today, i, maxLookback, rwd, legacy);
    var d := Back(today, i).value;
    if DayFails(d, rwd, legacy) {
      SearchFindsFirst(today, i + 1, maxLookback, rwd, legacy);
      var k: nat :| i + 1 <= k <= maxLookback && Back(today, k) == Some(r.date) && FailsBetween(today, i + 1, k, rwd, legacy);
      assert FailsBetween(today, i, k, rwd, legacy);
    } else {
      assert FailsBetween(today, i, i, rwd, legacy);
    }
  }

  /** The search gives up only when every day up to the look-back limit failed on both endpoints. */
  lemma {:induction false} SearchExhausted(today: Date, i: nat, maxLookback: int,
                                           rwd: Date -> Option<Json>, legacy: Date -> Option<Json>)
    requires Valid(today)
    requires SearchFrom(today, i, maxLookback, rwd, legacy).Exhausted?
    ensures FailsBetween(today, i, maxLookback + 1, rwd, legacy)
    decreases maxLookback + 1 - i
  {
    if i <= maxLookback {
      ExhaustedStep(today, i, maxLookback, rwd, legacy);
      SearchExhausted(today, i + 1, maxLookback, rwd, legacy);
      FailsExtend(today, i, maxLookback + 1, rwd, legacy);
    }
  }

  /** An exhausted search passed day `i`: it exists, failed, and the search from the next day is exhausted too. */
  lemma ExhaustedStep(today: Date, i: nat, maxLookback: int, rwd: Date -> Option<Json>, legacy: Date -> Option<Json>)
    requires Valid(today)
    requires i <= maxLookback
    requires SearchFrom(today, i, maxLookback, rwd, legacy).Exhausted?
    ensures Back(today, i).Some? && DayFails(Back(today, i).value, rwd, legacy)
    ensures SearchFrom(today, i + 1, maxLookback, rwd, legacy).Exhausted?
  {
  }

  lemma FailsExtend(today: Date, i: nat, k: int, rwd: Date -> Option<Json>, legacy: Date -> Option<Json>)
    requires Valid(today)
    requires Back(today, i).Some? && DayFails(Back(today, i).value, rwd, legacy)
    requires FailsBetween(today, i + 1, k, rwd, legacy)
    ensures FailsBetween(today, i, k, rwd, legacy)
  {
  }

  /** `find_latest`: the loop over `range(max_lookback_days + 1)` with its early returns. */
  method FindLatest(today: Date, maxLookback: int, rwd: Date -> Option<Json>, legacy: Date -> Option<Json>)
    returns (r: Search)
    requires Valid(today)
    ensures r == SearchFrom(today, 0, maxLookback, rwd, legacy)
  {
    var i: nat := 0;
    while i <= maxLookback
      invariant SearchFrom(today, i, maxLookback, rwd, legacy) == SearchFrom(today, 0, maxLookback, rwd, legacy)
      decreases maxLookback + 1 - i
    {
      var d := Back(today, i);
      if d.None? {
        return Overflow;
      }
      var a := rwd(d.value);
      if Accepts(a) {
        return Found(d.value, a.value.fields, Rwd);
      }
      var b := legacy(d.value);
      if Accepts(b) {
        return Found(d.value, b.value.fields, Exchange);
      }
      i := i + 1;
    }
    return Exhausted;
  }

  // ---------------------------------------------------------------------------
  // main
  // ---------------------------------------------------------------------------

  /** `{k: v, **data}` built entry by entry: a key already present keeps its place and takes the later value. */
  function PutAll(acc: seq<Field>, fs: seq<Field>): (r: seq<Field>)
    ensures |acc| <= |r| <= |acc| + |fs|
    decreases |fs|
  {
    if fs == [] then acc else PutAll(Put(acc, fs[0].key, fs[0].val), fs[1..])
  }

  /** `{"_source": source, **data}`. */
  function WithSource(source: Source, data: seq<Field>): seq<Field> {
    PutAll([Field("_source", JStr(SourceName(source)))], data)
  }

  /** Every key of the payload keeps its value; `_source` is the fetch's own only when the payload has none. */
  lemma {:induction false} PutAllLookup(acc: seq<Field>, fs: seq<Field>, k: string)
    requires DistinctKeys(fs)
    ensures Lookup(PutAll(acc, fs), k) == if k in Keys(fs) then Lookup(fs, k) else Lookup(acc, k)
    decreases |fs|
  {
    if fs != [] {
      var rest := fs[1..];
      assert DistinctKeys(rest);
      assert Keys(fs) == [fs[0].key] + Keys(rest);
      PutAllLookup(Put(acc, fs[0].key, fs[0].val), rest, k);
      PutLookup(acc, fs[0].key, fs[0].val, k);
      if k in Keys(rest) {
        var j :| 0 <= j < |rest| && Keys(rest)[j] == k;
        assert fs[j + 1].key == k;
      }
    }
  }

  /** Earlier keys keep their positions, so `_source` stays the first key. */
  lemma {:induction false} PutAllKeepsFront(acc: seq<Field>, fs: seq<Field>)
    ensures |Keys(PutAll(acc, fs))| >= |Keys(acc)|
    ensures Keys(PutAll(acc, fs))[..|acc|] == Keys(acc)
    decreases |fs|
  {
    if fs != [] {
      var next := Put(acc, fs[0].key, fs[0].val);
      PutAllKeepsFront(next, fs[1..]);
      assert Keys(next)[..|acc|] == Keys(acc);
    }
  }

  lemma SourceFirst(source: Source, data: seq<Field>)
    requires DistinctKeys(data)
    ensures Keys(WithSource(source, data))[0] == "_source"
    ensures forall k :: k != "_source" ==> Lookup(WithSource(source, data), k) == Lookup(data, k)
    ensures "_source" !in Keys(data) ==> Lookup(WithSource(source, data), "_source") == Some(JStr(SourceName(source)))
  {
    var acc := [Field("_source", JStr(SourceName(source)))];
    PutAllKeepsFront(acc, data);
    assert Keys(acc)[0] == "_source";
    forall k ensures Lookup(WithSource(source, data), k) == if k in Keys(data) then Lookup(data, k) else Lookup(acc, k) {
      PutAllLookup(acc, data, k);
    }
  }

  const Prefix := "twse_MI_INDEX"

  /** `twse_MI_INDEX_<YYYYMMDD>.json`. */
  function FileName(d: Date): string
    requires Valid(d)
  {
    Prefix + "_" + Yyyymmdd(d) + ".json"
  }

  /** The saved file is one `prepare_input` looks for, and of two saved files the later day sorts last. */
  lemma SavedFilesSortByDate(a: Date, b: Date)
    requires Valid(a) && Valid(b)
    ensures PrepareInput.MatchesGlob(FileName(a), PrepareInput.TwsePrefix)
    ensures LexLe(FileName(a), FileName(b)) <==> !Before(b, a)
  {
    YyyymmddValue(a);
    YyyymmddValue(b);
    var p := Prefix + "_";
    assert FileName(a) == p + (Yyyymmdd(a) + ".json");
    assert FileName(b) == p + (Yyyymmdd(b) + ".json");
    assert FileName(a)[..|p|] == p;
    assert FileName(a)[|FileName(a)| - 5..] == ".json";
    LexLePrefix(p, Yyyymmdd(a) + ".json", Yyyymmdd(b) + ".json");
    NamesSortByDate(a, b);
    if Yyyymmdd(a) == Yyyymmdd(b) {
      LexLeRefl(Yyyymmdd(a) + ".json");
      LexLeRefl(Yyyymmdd(a));
    } else {
      LexLeDecided(Yyyymmdd(a), Yyyymmdd(b), ".json", ".json");
    }
  }

  /** data/inbound, as file name to text. */
  class Inbound {
    var files: map<string, string>

    constructor (files0: map<string, string>)
      ensures files == files0
    {
      files := files0;
    }

    /**
     * `main`: with a 14-day look-back, the found payload is saved with its
     * source (exit 0); otherwise nothing is written and the uncaught error
     * ends the run with status 1.
     */
    method Invoke(today: Date, rwd: Date -> Option<Json>, legacy: Date -> Option<Json>, dump: Json -> string)
      returns (exit: int)
      requires Valid(today)
      modifies this
      ensures var r := SearchFrom(today, 0, 14, rwd, legacy);
              && exit == (if r.Found? then 0 else 1)
              && files == (if r.Found? then old(files)[FileName(r.date) := dump(JObj(WithSource(r.source, r.payload))) + "\n"]
                           else old(files))
    {
      var r := FindLatest(today, 14, rwd, legacy);
      if !r.Found? {
        return 1;
      }
      files := files[FileName(r.date) := dump(JObj(WithSource(r.source, r.payload))) + "\n"];
      exit := 0;
    }
  }
}
