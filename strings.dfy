/**
  The few Python string operations the bot relies on: the `in` substring test,
  `os.path.basename`, and `"\n".join`, together with `str.split("\n")`, which
  is the inverse of that join and is used to state what a joined list says.
  Prefix tests (`str.startswith`) are Dafny's own `<=` on sequences.
 */
module Strings {

  /** Python's `needle in hay` on two strings. */
  predicate Contains(hay: string, needle: string)
    ensures Contains(hay, needle) ==> |needle| <= |hay|
    decreases |hay|
  {
    needle <= hay || (hay != [] && Contains(hay[1..], needle))
  }

  /** `Contains` holds exactly when `needle` starts at some position of `hay`. */
  lemma {:induction false} ContainsAt(hay: string, needle: string)
    ensures Contains(hay, needle) <==> exists i :: 0 <= i <= |hay| && needle <= hay[i..]
    decreases |hay|
  {
    if needle <= hay {
      assert hay[0..] == hay;
    } else if hay == [] {
    } else {
      ContainsAt(hay[1..], needle);
      if Contains(hay, needle) {
        var i :| 0 <= i <= |hay[1..]| && needle <= hay[1..][i..];
        assert hay[1..][i..] == hay[i + 1..];
      } else {
        forall i | 0 <= i <= |hay| ensures !(needle <= hay[i..]) {
          if i > 0 {
            assert hay[i..] == hay[1..][i - 1..];
          } else {
            assert hay[i..] == hay;
          }
        }
      }
    }
  }

  /** `os.path.basename`: the part of `path` after its last '/'. */
  function Basename(path: string): (name: string)
    ensures '/' !in name
    ensures |name| <= |path| && name == path[|path| - |name|..]
    ensures |name| < |path| ==> path[|path| - |name| - 1] == '/'
  {
    if path == [] || path[|path| - 1] == '/' then []
    else Basename(path[..|path| - 1]) + [path[|path| - 1]]
  }

  /** `"\n".join(lines)`. */
  function JoinLines(lines: seq<string>): (joined: string)
    ensures |joined| >= |lines| - 1
    ensures lines != [] ==> lines[0] <= joined
    ensures |lines| >= 2 ==> |lines[0]| < |joined| && joined[|lines[0]|] == '\n'
  {
    if lines == [] then []
    else if |lines| == 1 then lines[0]
    else lines[0] + "\n" + JoinLines(lines[1..])
  }

  /** `s.split("\n")`: the pieces of `s` between its newlines; never empty. */
  function SplitLines(s: string): (parts: seq<string>)
    ensures |parts| >= 1
  {
    if s == [] then [[]]
    else
      var rest := SplitLines(s[1..]);
      if s[0] == '\n' then [[]] + rest else [[s[0]] + rest[0]] + rest[1..]
  }

  /** A string without a newline splits into itself. */
  lemma {:induction false} SplitLinesSingle(a: string)
    requires '\n' !in a
    ensures SplitLines(a) == [a]
  {
    if a != [] {
      SplitLinesSingle(a[1..]);
      assert [a[0]] + a[1..] == a;
    }
  }

  /** Splitting stops at the first newline and goes on with what follows it. */
  lemma {:induction false} SplitLinesAfter(a: string, b: string)
    requires '\n' !in a
    ensures SplitLines(a + "\n" + b) == [a] + SplitLines(b)
  {
    if a == [] {
      assert a + "\n" + b == "\n" + b;
      assert ("\n" + b)[1..] == b;
    } else {
      SplitLinesAfter(a[1..], b);
      assert (a + "\n" + b)[1..] == a[1..] + "\n" + b;
      assert [a[0]] + a[1..] == a;
    }
  }

  /** Joining lines that hold no newline can be undone by splitting. */
  lemma {:induction false} SplitJoinLines(lines: seq<string>)
    requires lines != []
    requires forall k :: 0 <= k < |lines| ==> '\n' !in lines[k]
    ensures SplitLines(JoinLines(lines)) == lines
  {
    if |lines| == 1 {
      SplitLinesSingle(lines[0]);
    } else {
      SplitJoinLines(lines[1..]);
      SplitLinesAfter(lines[0], JoinLines(lines[1..]));
    }
  }
}
