/**
 * fallback_core/export_top20.py: the top-20 list is the enriched frame's rows
 * flagged `light_top20 == 1`, projected onto the display columns that exist, in
 * their priority order, and stably sorted by market, then rank, then trade
 * value (whichever of those columns exist).
 *
 * Frames are values, so the caller's frame is never changed: the copy the
 * script makes is implicit.
 */
module ExportTop20 {
  import opened Text
  import opened Seqs
  import opened Sorting
  import opened Frames

  const Priority: seq<string> := ["code", "name", "market", "trade_value", "tv_rank_mkt", "tv_pct_mkt",
                                  "turnover", "light_full", "light_decision", "light_top20"]
  const SortColumns: seq<string> := ["market", "tv_rank_mkt", "trade_value"]

  /** `sort_values` order on one column: numbers by value, text by code point, a missing value last. */
  predicate CellLe(a: Cell, b: Cell) {
    match (a, b)
    case (_, Blank) => true
    case (Blank, _) => false
    case (Num(x), Num(y)) => x <= y
    case (Num(_), Txt(_)) => true
    case (Txt(_), Num(_)) => false
    case (Txt(s), Txt(t)) => LexLe(s, t)
  }

  lemma CellLeTotal(a: Cell, b: Cell)
    ensures CellLe(a, b) || CellLe(b, a)
  {
    if a.Txt? && b.Txt? {
      LexLeTotal(a.s, b.s);
    }
  }

  lemma CellLeTrans(a: Cell, b: Cell, c: Cell)
    requires CellLe(a, b) && CellLe(b, c)
    ensures CellLe(a, c)
  {
    if a.Txt? && b.Txt? && c.Txt? {
      LexLeTrans(a.s, b.s, c.s);
    }
  }

  lemma CellLeAntisym(a: Cell, b: Cell)
    requires CellLe(a, b) && CellLe(b, a)
    ensures a == b
  {
    if a.Txt? && b.Txt? {
      LexLeAntisym(a.s, b.s);
    }
  }

  /** Ascending on every sort column in turn: a later column decides only between rows equal on the earlier ones. */
  predicate KeyLe(keys: seq<string>, a: Record, b: Record) {
    if keys == [] then true
    else if At(a, keys[0]) == At(b, keys[0]) then KeyLe(keys[1..], a, b)
    else CellLe(At(a, keys[0]), At(b, keys[0]))
  }

  lemma {:induction false} KeyLeTotal(keys: seq<string>, a: Record, b: Record)
    ensures KeyLe(keys, a, b) || KeyLe(keys, b, a)
  {
    if keys != [] {
      if At(a, keys[0]) == At(b, keys[0]) {
        KeyLeTotal(keys[1..], a, b);
      } else {
        CellLeTotal(At(a, keys[0]), At(b, keys[0]));
      }
    }
  }

  lemma {:induction false} KeyLeTrans(keys: seq<string>, a: Record, b: Record, c: Record)
    requires KeyLe(keys, a, b) && KeyLe(keys, b, c)
    ensures KeyLe(keys, a, c)
  {
    if keys != [] {
      var x, y, w := At(a, keys[0]), At(b, keys[0]), At(c, keys[0]);
      if x == y && y == w {
        KeyLeTrans(keys[1..], a, b, c);
      } else if x != y && y != w {
        CellLeTrans(x, y, w);
        if x == w {
          CellLeAntisym(x, y);
        }
      }
    }
  }

  function RowOrder(keys: seq<string>): (Record, Record) -> bool {
    (a, b) => KeyLe(keys, a, b)
  }

  lemma RowOrderPreorder(keys: seq<string>)
    ensures TotalPreorder(RowOrder(keys))
  {
    forall a, b ensures KeyLe(keys, a, b) || KeyLe(keys, b, a) {
      KeyLeTotal(keys, a, b);
    }
    forall a, b, c | KeyLe(keys, a, b) && KeyLe(keys, b, c) ensures KeyLe(keys, a, c) {
      KeyLeTrans(keys, a, b, c);
    }
  }

  /** `df["light_top20"] == 1`: a numeric one; text, other numbers and missing values fail. */
  predicate Flagged(r: Record) {
    At(r, "light_top20") == Num(1.0)
  }

  /** The names of `names` that are columns of `f`, in the order of `names`. */
  function Present(names: seq<string>, f: Frame): seq<string> {
    Filter(names, c => c in f.columns)
  }

  /** The kept rows, in input order; none when the frame has no `light_top20` column. */
  function TopRows(f: Frame): seq<Record> {
    if "light_top20" in f.columns then Filter(f.rows, Flagged) else []
  }

  /** The kept rows after the stable sort, before projection. */
  function SortedTop(f: Frame): seq<Record> {
    var keys := Present(SortColumns, f);
    if keys != [] then SortBy(TopRows(f), RowOrder(keys)) else TopRows(f)
  }

  /** `df[cols]` for one row. */
  function Project(r: Record, cols: seq<string>): Record {
    map c | c in cols && c in r :: r[c]
  }

  function ProjectAll(rows: seq<Record>, cols: seq<string>): (out: seq<Record>)
    ensures |out| == |rows|
    ensures forall i :: 0 <= i < |rows| ==> out[i] == Project(rows[i], cols)
  {
    if rows == [] then [] else ProjectAll(rows[..|rows| - 1], cols) + [Project(rows[|rows| - 1], cols)]
  }

  /** What `export_top20` returns. */
  function Export(f: Frame): Frame {
    var cols := Present(Priority, f);
    Frame(cols, ProjectAll(SortedTop(f), cols))
  }

  /** The frame returned and the file written: `to_csv` of the very same frame. */
  datatype Written = Written(frame: Frame, files: map<string, string>)

  function ExportTop20(f: Frame, outPath: string, files: map<string, string>, csv: Frame -> string): (w: Written)
    ensures outPath in w.files && w.files[outPath] == csv(w.frame)
    ensures forall p :: p in files && p != outPath ==> p in w.files && w.files[p] == files[p]
  {
    var out := Export(f);
    Written(out, files[outPath := csv(out)])
  }

  // ---------------------------------------------------------------------------
  // Properties
  // ---------------------------------------------------------------------------

  /** Exactly the flagged rows are exported, each once; without a `light_top20` column nothing is. */
  lemma ExportedRows(f: Frame)
    ensures "light_top20" !in f.columns ==> Export(f).rows == []
    ensures multiset(SortedTop(f)) == multiset(TopRows(f))
    ensures forall r :: r in TopRows(f) <==> r in f.rows && Flagged(r) && "light_top20" in f.columns
  {
    var keys := Present(SortColumns, f);
    if keys != [] {
      SortByPermutation(TopRows(f), RowOrder(keys));
    }
    forall r ensures r in TopRows(f) <==> r in f.rows && Flagged(r) && "light_top20" in f.columns {
      FilterMembers(f.rows, Flagged, r);
    }
  }

  /** The output columns are the priority columns the frame has, in priority order and without repeats. */
  lemma ExportedColumns(f: Frame)
    ensures forall c :: c in Export(f).columns <==> c in Priority && c in f.columns
    ensures forall i, j :: 0 <= i < j < |Export(f).columns| ==> Export(f).columns[i] != Export(f).columns[j]
  {
    var cols := Present(Priority, f);
    forall c ensures c in cols <==> c in Priority && c in f.columns {
      FilterMembers(Priority, x => x in f.columns, c);
    }
    PresentDistinct(Priority, f);
  }

  lemma {:induction false} PresentDistinct(names: seq<string>, f: Frame)
    requires forall i, j :: 0 <= i < j < |names| ==> names[i] != names[j]
    ensures forall i, j :: 0 <= i < j < |Present(names, f)| ==> Present(names, f)[i] != Present(names, f)[j]
  {
    if names != [] {
      var init := names[..|names| - 1];
      var x := names[|names| - 1];
      var p := (c: string) => c in f.columns;
      assert names == init + [x];
      PresentDistinct(init, f);
      FilterMembers(init, p, x);
      FilterSnoc(init, x, p);
      var pre := Present(init, f);
      if p(x) {
        var r := pre + [x];
        assert x !in pre;
        forall i, j | 0 <= i < j < |r| ensures r[i] != r[j] {
          if j == |pre| {
            assert r[i] in pre;
          } else {
            assert r[i] == pre[i] && r[j] == pre[j];
          }
        }
      }
    }
  }

  /** The rows come out in ascending order of the sort columns the frame has. */
  lemma ExportedSorted(f: Frame)
    requires Present(SortColumns, f) != []
    ensures SortedBy(SortedTop(f), RowOrder(Present(SortColumns, f)))
  {
    var keys := Present(SortColumns, f);
    RowOrderPreorder(keys);
    SortBySorted(TopRows(f), RowOrder(keys));
  }

  /** The sort is stable: rows equal on every sort column keep their input order. */
  lemma ExportedStable(f: Frame, z: Record)
    requires Present(SortColumns, f) != []
    ensures var le := RowOrder(Present(SortColumns, f));
            Filter(SortedTop(f), SameKey(le, z)) == Filter(TopRows(f), SameKey(le, z))
  {
    var keys := Present(SortColumns, f);
    RowOrderPreorder(keys);
    SortByStable(TopRows(f), RowOrder(keys), z);
  }

  /** Every exported row is a flagged input row cut down to the output columns. */
  lemma ExportedFromFlagged(f: Frame, i: nat)
    requires i < |Export(f).rows|
    ensures exists r :: r in f.rows && Flagged(r) && Export(f).rows[i] == Project(r, Export(f).columns)
  {
    ExportedRows(f);
    var r := SortedTop(f)[i];
    assert r in multiset(SortedTop(f));
    assert r in TopRows(f);
    assert Export(f).rows[i] == Project(r, Export(f).columns);
  }
}
