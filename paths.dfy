/**
 * File-system paths as strings, joined the way POSIX `os.path.join` joins
 * them: with a `/` separator, and an absolute component discarding
 * everything before it.
 */
module Paths {

  predicate IsAbs(p: string)
  {
    p != [] && p[0] == '/'
  }

  predicate EndsWithSep(p: string)
  {
    p != [] && p[|p| - 1] == '/'
  }

  /** `os.path.join(a, b)` on POSIX. */
  function Join(a: string, b: string): string
  {
    if IsAbs(b) then b
    else if a == [] || EndsWithSep(a) then a + b
    else a + "/" + b
  }

  /**
   * A joined path ends with its last component, and starts with the
   * directory unless that component is absolute, in which case it is the
   * component alone.
   */
  lemma JoinParts(a: string, b: string)
    ensures var r := Join(a, b);
            && |b| <= |r| && r[|r| - |b|..] == b
            && (!IsAbs(b) ==> |a| <= |r| && r[..|a|] == a)
            && (IsAbs(b) ==> r == b)
  {
  }

  /** The text `Join` puts in front of a relative component. */
  function DirPrefix(a: string): (r: string)
    ensures a != [] ==> EndsWithSep(r)
  {
    if a == [] || EndsWithSep(a) then a else a + "/"
  }

  /**
   * Joining a relative component appends it to `DirPrefix(a)`, so two
   * relative components joined to the same directory give different paths
   * exactly when they differ.
   */
  lemma JoinRelative(a: string, b: string, c: string)
    requires !IsAbs(b) && !IsAbs(c)
    ensures Join(a, b) == DirPrefix(a) + b
    ensures Join(a, b) == Join(a, c) <==> b == c
  {
    if Join(a, b) == Join(a, c) {
      var d := DirPrefix(a);
      assert b == (d + b)[|d|..];
      assert c == (d + c)[|d|..];
    }
  }

  /** A joined path ends with a separator only when its last component does, or that component is empty. */
  lemma JoinEndsWithSep(a: string, b: string)
    requires a != [] && !IsAbs(b)
    ensures EndsWithSep(Join(a, b)) <==> (b == [] || EndsWithSep(b))
  {
  }
}
