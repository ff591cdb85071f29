/**
 * Path normalisation used by `get`, `put`, `post`, `create` and `destroy`:
 * `"/" + path.replace(/\//g, "")`, which drops every slash of the argument
 * and puts a single one in front.
 */
module Paths {

  /** `s.replace(/\//g, "")`: `s` with every `/` removed. */
  function StripSlashes(s: string): (r: string)
    ensures '/' !in r
    ensures |r| <= |s|
  {
    if s == [] then ""
    else (if s[0] == '/' then "" else [s[0]]) + StripSlashes(s[1..])
  }

  /** `"/" + s.replace(/\//g, "")`. */
  function NormalizePath(s: string): (r: string)
    ensures |r| >= 1 && r[0] == '/'
    ensures '/' !in r[1..]
  {
    "/" + StripSlashes(s)
  }

  /** A normalised path: one leading slash and no other. */
  predicate IsNormalPath(p: string) {
    |p| >= 1 && p[0] == '/' && '/' !in p[1..]
  }

  /** Stripping works piece by piece: it distributes over concatenation. */
  lemma {:induction false} StripSlashesAppend(a: string, b: string)
    ensures StripSlashes(a + b) == StripSlashes(a) + StripSlashes(b)
  {
    if a == [] {
      assert a + b == b;
    } else {
      var ab := a + b;
      var head := if a[0] == '/' then "" else [a[0]];
      assert ab[0] == a[0];
      assert ab[1..] == a[1..] + b;
      assert StripSlashes(ab) == head + StripSlashes(a[1..] + b);
      StripSlashesAppend(a[1..], b);
      assert head + (StripSlashes(a[1..]) + StripSlashes(b)) == (head + StripSlashes(a[1..])) + StripSlashes(b);
    }
  }

  /** A leading slash is dropped. */
  lemma StripSlashesLeadingSlash(s: string)
    requires |s| >= 1 && s[0] == '/'
    ensures StripSlashes(s) == StripSlashes(s[1..])
  {
  }

  /** Together with StripSlashesAppend: the characters that are kept are exactly the non-slash ones. */
  lemma StripSlashesChar(c: char)
    ensures StripSlashes([c]) == if c == '/' then "" else [c]
  {
  }

  /** A string without slashes is left exactly as it is. */
  lemma {:induction false} StripSlashesOfSlashFree(s: string)
    requires '/' !in s
    ensures StripSlashes(s) == s
  {
    if s != [] {
      assert '/' !in s[1..] by {
        forall i | 0 <= i < |s[1..]| ensures s[1..][i] != '/' {
          assert s[1..][i] == s[i + 1];
        }
      }
      StripSlashesOfSlashFree(s[1..]);
    }
  }

  /** Every non-slash character keeps its number of occurrences. */
  lemma {:induction false} StripSlashesKeepsCount(s: string, c: char)
    requires c != '/'
    ensures multiset(StripSlashes(s))[c] == multiset(s)[c]
  {
    if s != [] {
      assert s == [s[0]] + s[1..];
      StripSlashesKeepsCount(s[1..], c);
    }
  }

  /** Normalising twice is normalising once. */
  lemma NormalizePathIdempotent(s: string)
    ensures NormalizePath(NormalizePath(s)) == NormalizePath(s)
  {
    var p := NormalizePath(s);
    StripSlashesLeadingSlash(p);
    assert p[1..] == StripSlashes(s);
    StripSlashesOfSlashFree(StripSlashes(s));
  }

  /** A path that is already normal comes back unchanged. */
  lemma NormalizePathOfNormal(p: string)
    requires IsNormalPath(p)
    ensures NormalizePath(p) == p
  {
    StripSlashesLeadingSlash(p);
    StripSlashesOfSlashFree(p[1..]);
    assert p == "/" + p[1..];
  }

  /** A name without slashes just gains the leading one. */
  lemma NormalizePathOfName(s: string)
    requires '/' !in s
    ensures NormalizePath(s) == "/" + s
  {
    StripSlashesOfSlashFree(s);
  }

  /**
   * A slash inside the argument is dropped as well: `"db/doc"` becomes
   * `"/dbdoc"`, so these paths cannot name a nested resource.
   */
  lemma NormalizePathDropsInnerSlash(a: string, b: string)
    requires '/' !in a && '/' !in b
    ensures NormalizePath(a + "/" + b) == "/" + a + b
  {
    var tail := "/" + b;
    assert StripSlashes(tail) == b by {
      StripSlashesLeadingSlash(tail);
      assert tail[1..] == b;
      StripSlashesOfSlashFree(b);
    }
    assert StripSlashes(a + tail) == a + b by {
      StripSlashesAppend(a, tail);
      StripSlashesOfSlashFree(a);
    }
    assert a + "/" + b == a + tail;
    assert "/" + a + b == "/" + (a + b);
  }
}
