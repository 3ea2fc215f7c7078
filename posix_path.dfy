/**
 * The two-argument `os.path.join` the shell uses to build the target of
 * `cd`, following the POSIX rule: an absolute second part replaces the
 * first, otherwise the parts are glued with one `/` unless the first is
 * empty or already ends with one.
 */
module PosixPath {

  predicate IsAbsolute(p: string) {
    |p| > 0 && p[0] == '/'
  }

  function Join(a: string, b: string): (r: string)
    ensures IsAbsolute(b) ==> r == b
    ensures !IsAbsolute(b) ==> |a| <= |r| && r[..|a|] == a
    ensures !IsAbsolute(b) && b != [] ==> |a| < |r|
    ensures |b| <= |r| && r[|r| - |b|..] == b
  {
    if IsAbsolute(b) then b
    else if a == [] || a[|a| - 1] == '/' then a + b
    else a + "/" + b
  }
}
