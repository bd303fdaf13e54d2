/** Windows-style paths as the scripts build them with `pathlib`: a backslash or a slash separates the parts. */
module Paths {
  import opened Wrappers

  predicate IsSep(c: char) {
    c == '/' || c == '\\'
  }

  /** `Path(a) / b`. */
  function JoinPath(a: string, b: string): string {
    a + "\\" + b
  }

  /** The position just after the last separator, 0 when there is none. */
  function NameStart(p: string): (k: nat)
    ensures k <= |p|
    ensures forall i :: k <= i < |p| ==> !IsSep(p[i])
    ensures k > 0 ==> IsSep(p[k - 1])
  {
    if p == [] then 0
    else if IsSep(p[|p| - 1]) then |p|
    else NameStart(p[..|p| - 1])
  }

  /** `Path(p).name`. */
  function PathName(p: string): string {
    p[NameStart(p)..]
  }

  /** `Path(p).parent`. */
  function PathParent(p: string): string {
    var k := NameStart(p);
    if k == 0 then "." else if k == 1 then p[..1] else p[..k - 1]
  }

  /** The position of the last '.' in `s`, when there is one. */
  function LastDot(s: string): (r: Option<nat>)
    ensures r.Some? ==> r.value < |s| && s[r.value] == '.'
  {
    if s == [] then None
    else if s[|s| - 1] == '.' then Some(|s| - 1)
    else LastDot(s[..|s| - 1])
  }

  /** `Path(p).stem`: the name without its last suffix. */
  function PathStem(p: string): string {
    var name := PathName(p);
    match LastDot(name)
    case Some(i) => if 0 < i < |name| - 1 then name[..i] else name
    case None => name
  }
}
