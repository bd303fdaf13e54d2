/**
 * app/ops/path_display.py: the path shown in log lines. A path under the
 * user's display root is shown through that root; any other path with a
 * final name is shown as that name under the root; anything else is shown
 * as it is.
 *
 * Paths are Windows pathlib paths taken apart: an anchor (drive and root,
 * possibly empty) and the names after it. `p.parts` is the anchor, when
 * there is one, followed by the names.
 */
module PathDisplay {
  /** A pure Windows path. */
  datatype PathV = PathV(anchor: string, names: seq<string>)

  /** A name never holds a separator or a drive colon and is never empty or ".". */
  predicate ValidName(n: string) {
    n != "" && n != "." && ':' !in n && '\\' !in n && '/' !in n
  }

  /** An anchor is empty, or holds a drive colon or a separator. */
  predicate ValidAnchor(a: string) {
    a == "" || ':' in a || '\\' in a
  }

  predicate Valid(p: PathV) {
    ValidAnchor(p.anchor) && forall i :: 0 <= i < |p.names| ==> ValidName(p.names[i])
  }

  /** `p.parts`. */
  function Parts(p: PathV): (parts: seq<string>)
    ensures |parts| == (if p.anchor == "" then 0 else 1) + |p.names|
  {
    (if p.anchor == "" then [] else [p.anchor]) + p.names
  }

  /** `p.name`: the last name, empty for a bare anchor or the empty path. */
  function Name(p: PathV): string {
    if p.names == [] then "" else p.names[|p.names| - 1]
  }

  /** `dr / Path(*rest)`, where `rest` are trailing parts of another path: with no parts in `dr`, the result is that path. */
  function JoinRest(dr: PathV, rest: seq<string>, whole: PathV): PathV {
    if Parts(dr) == [] then whole else PathV(dr.anchor, dr.names + rest)
  }

  /** The root's parts begin `p`'s parts. */
  predicate Under(p: PathV, dr: PathV) {
    |Parts(p)| >= |Parts(dr)| && Parts(p)[..|Parts(dr)|] == Parts(dr)
  }

  /** `display_path`. */
  function Display(p: PathV, dr: PathV): (r: PathV)
    ensures Valid(p) && Valid(dr) ==> Valid(r)
  {
    if Under(p, dr) then JoinRest(dr, Parts(p)[|Parts(dr)|..], p)
    else if Name(p) != "" then PathV(dr.anchor, dr.names + [Name(p)])
    else p
  }

  /** Under the root, the display is the root joined with the remaining parts, which is the path itself. */
  lemma DisplayUnder(p: PathV, dr: PathV)
    requires Valid(p) && Valid(dr) && Under(p, dr)
    ensures Parts(dr) != [] ==> Display(p, dr) == PathV(dr.anchor, dr.names + Parts(p)[|Parts(dr)|..])
    ensures Display(p, dr) == p
  {
    if Parts(dr) != [] {
      var k := |Parts(dr)|;
      SameAnchor(p, dr);
      if dr.anchor == "" {
        assert Parts(p) == p.names && Parts(dr) == dr.names;
        assert p.names == dr.names + p.names[k..];
      } else {
        assert Parts(p) == [p.anchor] + p.names && Parts(dr) == [dr.anchor] + dr.names;
        assert p.names[..k - 1] == Parts(p)[1..k];
        assert p.names == dr.names + p.names[k - 1..];
        assert Parts(p)[k..] == p.names[k - 1..];
      }
    }
  }

  /** A root with parts and a path under it share their anchor: an anchor never matches a name. */
  lemma SameAnchor(p: PathV, dr: PathV)
    requires Valid(p) && Valid(dr) && Under(p, dr) && Parts(dr) != []
    ensures p.anchor == dr.anchor
  {
    assert Parts(p)[0] == Parts(dr)[0];
    if dr.anchor == "" {
      assert ValidName(dr.names[0]);
    }
  }

  /** The root itself is displayed as the root. */
  lemma DisplayRoot(dr: PathV)
    requires Valid(dr)
    ensures Display(dr, dr) == dr
  {
    assert Parts(dr)[..|Parts(dr)|] == Parts(dr);
    DisplayUnder(dr, dr);
  }

  /** A path elsewhere with a final name is shown as that name under the root; one without is shown unchanged. */
  lemma DisplayElsewhere(p: PathV, dr: PathV)
    requires Valid(p) && !Under(p, dr)
    ensures p.names != [] ==> Display(p, dr) == PathV(dr.anchor, dr.names + [p.names[|p.names| - 1]])
    ensures p.names == [] ==> Display(p, dr) == p
  {
  }
}
