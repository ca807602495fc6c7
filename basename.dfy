/** The final component of a path, as computed by IRTK's basename2.

    A C string is modelled by the characters before its terminating NUL.
    basename2 returns a pointer into its argument, so its result is always a
    suffix of the input; the model returns that suffix as a sequence. */
module Basename {

  const Slash: char := '/'

  /** strrchr(s, '/'): the index of the last '/' in s, or -1 when s has none. */
  function LastSlash(s: string): (i: int)
    ensures -1 <= i < |s|
    ensures i >= 0 ==> s[i] == Slash
    ensures forall k :: i < k < |s| ==> s[k] != Slash
  {
    if |s| == 0 then -1
    else if s[|s| - 1] == Slash then |s| - 1
    else LastSlash(s[..|s| - 1])
  }

  /** r is the longest suffix of s that holds no '/': either all of s, or
      what follows a '/' of s. This is the reference definition of a basename. */
  ghost predicate IsBasename(s: string, r: string) {
    && |r| <= |s|
    && r == s[|s| - |r|..]
    && Slash !in r
    && (|r| < |s| ==> s[|s| - |r| - 1] == Slash)
  }

  /** basename2(filename): the text after the last '/', or the whole string. */
  function Basename2(filename: string): (r: string)
    ensures |r| <= |filename| && r == filename[|filename| - |r|..]
    ensures Slash !in r
    ensures |r| < |filename| ==> filename[|filename| - |r| - 1] == Slash
  {
    var p := LastSlash(filename);
    if p >= 0 then filename[p + 1..] else filename
  }

  /** At most one string satisfies IsBasename for a given input, so the
      contract of Basename2 pins its result down completely. */
  lemma BasenameUnique(s: string, r1: string, r2: string)
    requires IsBasename(s, r1) && IsBasename(s, r2)
    ensures r1 == r2
  {
  }

  /** Basename2 agrees with the reference definition, in both directions. */
  lemma BasenameCharacterized(s: string, r: string)
    ensures IsBasename(s, r) <==> r == Basename2(s)
  {
    assert IsBasename(s, Basename2(s));
    if IsBasename(s, r) {
      BasenameUnique(s, r, Basename2(s));
    }
  }

  /** A path without '/' is its own basename. */
  lemma NoSlashIsWhole(s: string)
    requires Slash !in s
    ensures Basename2(s) == s
  {
  }

  /** With a '/' in the path, the result is exactly what follows the last one. */
  lemma AfterLastSlash(s: string, i: int)
    requires 0 <= i < |s| && s[i] == Slash
    requires forall k :: i < k < |s| ==> s[k] != Slash
    ensures Basename2(s) == s[i + 1..]
  {
    var r := s[i + 1..];
    assert Slash !in r by {
      forall j | 0 <= j < |r| ensures r[j] != Slash {
        assert r[j] == s[i + 1 + j];
      }
    }
    assert IsBasename(s, r);
    BasenameCharacterized(s, r);
  }

  /** A path that ends in '/' names a directory: its basename is empty. */
  lemma TrailingSlashIsEmpty(s: string)
    requires |s| > 0 && s[|s| - 1] == Slash
    ensures Basename2(s) == []
  {
    AfterLastSlash(s, |s| - 1);
  }

  /** Taking the basename twice changes nothing. */
  lemma Idempotent(s: string)
    ensures Basename2(Basename2(s)) == Basename2(s)
  {
    NoSlashIsWhole(Basename2(s));
  }

  /** Joining a directory and a slash-free name with '/' and taking the
      basename gives the name back, whatever the directory holds. */
  lemma JoinRoundTrip(dir: string, name: string)
    requires Slash !in name
    ensures Basename2(dir + [Slash] + name) == name
  {
    var s := dir + [Slash] + name;
    var i := |dir|;
    forall k | i < k < |s| ensures s[k] != Slash {
      assert s[k] == name[k - i - 1];
    }
    AfterLastSlash(s, i);
    assert s[i + 1..] == name;
  }
}
