/**
 * Go's slash-separated path handling on a system whose separator is '/':
 * `strings.Split(s, "/")`, `strings.Join(parts, "/")`, and `path/filepath`'s
 * `Clean`, `Join` (of two elements), `Base`, `Dir` and `IsAbs`.
 */
module GoPath {

  /** `strings.Split(s, "/")`: the pieces between slashes; never empty ("" gives [""]). */
  function Split(s: string): (r: seq<string>)
    ensures |r| >= 1
  {
    if |s| == 0 then [""]
    else
      var rest := Split(s[1..]);
      if s[0] == '/' then [""] + rest
      else [[s[0]] + rest[0]] + rest[1..]
  }

  /** `strings.Join(parts, "/")`. */
  function JoinSlash(parts: seq<string>): string {
    if |parts| == 0 then ""
    else if |parts| == 1 then parts[0]
    else parts[0] + "/" + JoinSlash(parts[1..])
  }

  /** A path element that cleaning keeps as it is. */
  predicate Normal(seg: string) {
    seg != "" && seg != "." && seg != ".." && '/' !in seg
  }

  predicate AllNormal(parts: seq<string>) {
    forall k :: 0 <= k < |parts| ==> Normal(parts[k])
  }

  predicate IsAbs(p: string) {
    |p| > 0 && p[0] == '/'
  }

  lemma {:induction false} SplitNoSlash(s: string)
    requires '/' !in s
    ensures Split(s) == [s]
    decreases |s|
  {
    if |s| > 0 {
      SplitNoSlash(s[1..]);
      assert [s[0]] + s[1..] == s;
    }
  }

  /** Splitting at a slash splits the two halves independently. */
  lemma {:induction false} SplitAppend(a: string, b: string)
    ensures Split(a + "/" + b) == Split(a) + Split(b)
    decreases |a|
  {
    var s := a + "/" + b;
    if |a| == 0 {
      assert s[0] == '/' && s[1..] == b;
    } else {
      assert s[0] == a[0] && s[1..] == a[1..] + "/" + b;
      SplitAppend(a[1..], b);
      var x, y := Split(a[1..]), Split(b);
      assert Split(s) == SplitStep(a[0], x + y);
      assert Split(a) == SplitStep(a[0], x);
      SplitStepAppend(a[0], x, y);
    }
  }

  /** One step of `Split`: the character in front of the pieces of the rest. */
  function SplitStep(c: char, rest: seq<string>): seq<string>
    requires |rest| >= 1
  {
    if c == '/' then [""] + rest else [[c] + rest[0]] + rest[1..]
  }

  lemma SplitStepAppend(c: char, x: seq<string>, y: seq<string>)
    requires |x| >= 1
    ensures SplitStep(c, x + y) == SplitStep(c, x) + y
  {
    if c != '/' {
      assert (x + y)[0] == x[0] && (x + y)[1..] == x[1..] + y;
    }
  }

  /** No piece of a split holds a slash. */
  lemma {:induction false} SplitPiecesHaveNoSlash(s: string)
    ensures forall k :: 0 <= k < |Split(s)| ==> '/' !in Split(s)[k]
    decreases |s|
  {
    if |s| > 0 {
      SplitPiecesHaveNoSlash(s[1..]);
      var rest := Split(s[1..]);
      if s[0] != '/' {
        assert forall c :: c in [s[0]] + rest[0] ==> c == s[0] || c in rest[0];
      }
    }
  }

  /** Splitting undoes joining, for pieces without slashes. */
  lemma {:induction false} SplitJoin(parts: seq<string>)
    requires |parts| >= 1
    requires forall k :: 0 <= k < |parts| ==> '/' !in parts[k]
    ensures Split(JoinSlash(parts)) == parts
    decreases |parts|
  {
    if |parts| == 1 {
      SplitNoSlash(parts[0]);
    } else {
      SplitJoin(parts[1..]);
      SplitNoSlash(parts[0]);
      SplitAppend(parts[0], JoinSlash(parts[1..]));
      assert [parts[0]] + parts[1..] == parts;
    }
  }

  /** Joining the pieces of a split gives the string back. */
  lemma {:induction false} JoinSplit(s: string)
    ensures JoinSlash(Split(s)) == s
    decreases |s|
  {
    if |s| > 0 {
      JoinSplit(s[1..]);
      var rest := Split(s[1..]);
      if s[0] == '/' {
        assert ([""] + rest)[1..] == rest;
      } else if |rest| > 1 {
        assert ([[s[0]] + rest[0]] + rest[1..])[1..] == rest[1..];
      }
    }
  }

  lemma {:induction false} JoinSlashSnoc(parts: seq<string>, x: string)
    requires |parts| >= 1
    ensures JoinSlash(parts + [x]) == JoinSlash(parts) + "/" + x
    decreases |parts|
  {
    if |parts| == 1 {
      assert parts + [x] == [parts[0], x];
    } else {
      assert (parts + [x])[1..] == parts[1..] + [x];
      JoinSlashSnoc(parts[1..], x);
    }
  }

  /** A join of normal elements neither starts nor ends with a slash, and is not empty. */
  lemma {:induction false} JoinNormalEnds(parts: seq<string>)
    requires |parts| >= 1 && AllNormal(parts)
    ensures |JoinSlash(parts)| > 0
    ensures JoinSlash(parts)[0] != '/'
    ensures JoinSlash(parts)[|JoinSlash(parts)| - 1] != '/'
    decreases |parts|
  {
    assert Normal(parts[0]);
    if |parts| > 1 {
      JoinNormalEnds(parts[1..]);
      assert Normal(parts[1..][0]);
    }
    var j := JoinSlash(parts);
    assert j[0] == parts[0][0];
    assert parts[0][0] in parts[0];
  }

  /**
   * One element of `path.Clean`'s scan: skip empty and "." elements; ".." removes the last
   * kept element unless that is itself "..", and otherwise is dropped at the root or kept
   * in a relative path.
   */
  function CleanStep(stack: seq<string>, part: string, rooted: bool): seq<string> {
    if part == "" || part == "." then stack
    else if part == ".." then
      if |stack| > 0 && stack[|stack| - 1] != ".." then stack[..|stack| - 1]
      else if rooted then stack
      else stack + [".."]
    else stack + [part]
  }

  /** `CleanStep` over `parts`, left to right, starting from `stack`. */
  function CleanFold(stack: seq<string>, parts: seq<string>, rooted: bool): seq<string>
    decreases |parts|
  {
    if |parts| == 0 then stack
    else CleanStep(CleanFold(stack, parts[..|parts| - 1], rooted), parts[|parts| - 1], rooted)
  }

  /** `filepath.Clean`. */
  function Clean(p: string): string {
    if p == "" then "."
    else
      var rooted := p[0] == '/';
      var stack := CleanFold([], Split(p), rooted);
      if rooted then "/" + JoinSlash(stack)
      else if stack == [] then "."
      else JoinSlash(stack)
  }

  /** `filepath.Join(a, b)`: empty elements are ignored and the result is cleaned. */
  function Join2(a: string, b: string): string {
    if a != "" then Clean(a + "/" + b)
    else if b != "" then Clean(b)
    else ""
  }

  function StripTrailingSlashes(p: string): (r: string)
    ensures |r| <= |p| && r == p[..|r|]
    ensures |r| > 0 ==> r[|r| - 1] != '/'
  {
    if |p| > 0 && p[|p| - 1] == '/' then StripTrailingSlashes(p[..|p| - 1]) else p
  }

  /** What follows the last slash of `p` (all of `p` if it has none). */
  function AfterLastSlash(p: string): (r: string)
    ensures '/' !in r
    ensures |r| <= |p| && r == p[|p| - |r|..]
  {
    if |p| == 0 || p[|p| - 1] == '/' then ""
    else AfterLastSlash(p[..|p| - 1]) + [p[|p| - 1]]
  }

  /** `p` up to and including its last slash ("" if it has none). */
  function UpToLastSlash(p: string): (r: string)
    ensures |r| <= |p| && r == p[..|r|]
  {
    if |p| == 0 || p[|p| - 1] == '/' then p else UpToLastSlash(p[..|p| - 1])
  }

  /** `filepath.Base`. */
  function Base(p: string): string {
    if p == "" then "."
    else
      var q := StripTrailingSlashes(p);
      if q == "" then "/"
      else
        var b := AfterLastSlash(q);
        if b == "" then "/" else b
  }

  /** `filepath.Dir`. */
  function Dir(p: string): string {
    Clean(UpToLastSlash(p))
  }

  /** Cleaning keeps normal elements as they are. */
  lemma {:induction false} CleanFoldNormal(stack: seq<string>, parts: seq<string>, rooted: bool)
    requires AllNormal(parts)
    ensures CleanFold(stack, parts, rooted) == stack + parts
    decreases |parts|
  {
    if |parts| > 0 {
      CleanFoldNormal(stack, parts[..|parts| - 1], rooted);
      assert stack + parts[..|parts| - 1] + [parts[|parts| - 1]] == stack + parts;
    }
  }

  /** The scan over two halves is the scan of the second half from where the first ended. */
  lemma {:induction false} CleanFoldConcat(stack: seq<string>, xs: seq<string>, ys: seq<string>, rooted: bool)
    ensures CleanFold(stack, xs + ys, rooted) == CleanFold(CleanFold(stack, xs, rooted), ys, rooted)
    decreases |ys|
  {
    if |ys| == 0 {
      assert xs + ys == xs;
    } else {
      var zs := xs + ys;
      assert zs[..|zs| - 1] == xs + ys[..|ys| - 1];
      assert zs[|zs| - 1] == ys[|ys| - 1];
      CleanFoldConcat(stack, xs, ys[..|ys| - 1], rooted);
    }
  }

  /** At the root the scan only ever keeps normal elements. */
  lemma {:induction false} CleanFoldRootedNormal(stack: seq<string>, parts: seq<string>)
    requires AllNormal(stack)
    requires forall k :: 0 <= k < |parts| ==> '/' !in parts[k]
    ensures AllNormal(CleanFold(stack, parts, true))
    decreases |parts|
  {
    if |parts| > 0 {
      CleanFoldRootedNormal(stack, parts[..|parts| - 1]);
    }
  }

  /** A relative path of normal elements is already clean. */
  lemma CleanJoinNormal(parts: seq<string>)
    requires |parts| >= 1 && AllNormal(parts)
    ensures Clean(JoinSlash(parts)) == JoinSlash(parts)
  {
    JoinNormalEnds(parts);
    SplitJoin(parts);
    CleanFoldNormal([], parts, false);
    assert [] + parts == parts;
  }

  /** `filepath.Join` of a relative clean path and a normal element puts one slash between them. */
  lemma JoinNormalElement(parts: seq<string>, name: string)
    requires |parts| >= 1 && AllNormal(parts) && Normal(name)
    ensures Join2(JoinSlash(parts), name) == JoinSlash(parts + [name])
  {
    JoinNormalEnds(parts);
    JoinSlashSnoc(parts, name);
    assert AllNormal(parts + [name]);
    CleanJoinNormal(parts + [name]);
  }

  /** The base of a path is a single element: either "/", or a piece with no slash. */
  lemma BaseShape(p: string)
    ensures Base(p) == "/" || (Base(p) != "" && '/' !in Base(p))
  {
  }

  /** The base of a plain element is the element itself. */
  lemma BaseOfElement(name: string)
    requires name != "" && '/' !in name
    ensures Base(name) == name
  {
    assert StripTrailingSlashes(name) == name;
    AfterLastSlashNoSlash(name);
  }

  /** What follows a slash and a slash-free name is that name. */
  lemma {:induction false} AfterLastSlashOfSuffix(p: string, name: string)
    requires '/' !in name
    ensures AfterLastSlash(p + "/" + name) == name
    decreases |name|
  {
    var s := p + "/" + name;
    if |name| == 0 {
      assert s[|s| - 1] == '/';
    } else {
      var init := name[..|name| - 1];
      assert s[..|s| - 1] == p + "/" + init;
      assert s[|s| - 1] == name[|name| - 1];
      assert forall c :: c in init ==> c in name;
      AfterLastSlashOfSuffix(p, init);
      assert init + [name[|name| - 1]] == name;
    }
  }

  /** The base of a path of normal elements is its last element. */
  lemma BaseOfJoin(parts: seq<string>, name: string)
    requires AllNormal(parts + [name])
    ensures Base(JoinSlash(parts + [name])) == name
  {
    assert Normal((parts + [name])[|parts|]);
    if parts == [] {
      assert parts + [name] == [name];
      BaseOfElement(name);
    } else {
      assert AllNormal(parts) by {
        forall k | 0 <= k < |parts| ensures Normal(parts[k]) {
          assert parts[k] == (parts + [name])[k];
        }
      }
      JoinSlashSnoc(parts, name);
      var s := JoinSlash(parts) + "/" + name;
      assert s[|s| - 1] == name[|name| - 1] && name[|name| - 1] in name;
      assert StripTrailingSlashes(s) == s;
      AfterLastSlashOfSuffix(JoinSlash(parts), name);
    }
  }

  lemma {:induction false} AfterLastSlashNoSlash(p: string)
    requires '/' !in p
    ensures AfterLastSlash(p) == p
    decreases |p|
  {
    if |p| > 0 {
      AfterLastSlashNoSlash(p[..|p| - 1]);
      assert p[..|p| - 1] + [p[|p| - 1]] == p;
    }
  }

  /** A rooted clean path has a leading slash, then its normal elements. */
  lemma {:induction false} SplitRooted(hs: seq<string>)
    requires AllNormal(hs)
    ensures |hs| >= 1 ==> Split("/" + JoinSlash(hs)) == [""] + hs
    ensures |hs| == 0 ==> Split("/" + JoinSlash(hs)) == ["", ""]
  {
    if |hs| >= 1 {
      assert "/" + JoinSlash(hs) == "" + "/" + JoinSlash(hs);
      SplitAppend("", JoinSlash(hs));
      SplitJoin(hs);
    } else {
      assert "/" + JoinSlash(hs) == "" + "/" + "";
      SplitAppend("", "");
    }
  }

  /** Cleaning a rooted clean path at the root gives back its elements. */
  lemma CleanFoldRootParts(hs: seq<string>)
    requires AllNormal(hs)
    ensures CleanFold([], Split("/" + JoinSlash(hs)), true) == hs
  {
    SplitRooted(hs);
    var rootParts := if |hs| >= 1 then [""] + hs else ["", ""];
    CleanFoldConcat([], [""], hs, true);
    assert CleanFold([], [""], true) == [] by {
      assert [""][..0] == [];
    }
    CleanFoldNormal([], hs, true);
    if |hs| == 0 {
      assert ["", ""][..1] == [""];
    }
  }

  /**
   * `filepath.Join` of a rooted clean directory with normal elements (given with or without a
   * leading slash) appends them with single slashes.
   */
  lemma JoinUnderRoot(hs: seq<string>, es: seq<string>)
    requires AllNormal(hs) && |es| >= 1 && AllNormal(es)
    ensures Join2("/" + JoinSlash(hs), JoinSlash(es)) == "/" + JoinSlash(hs + es)
    ensures Join2("/" + JoinSlash(hs), "/" + JoinSlash(es)) == "/" + JoinSlash(hs + es)
  {
    JoinUnderRootPlain(hs, es);
    JoinUnderRootSlashed(hs, es);
  }

  lemma JoinUnderRootPlain(hs: seq<string>, es: seq<string>)
    requires AllNormal(hs) && |es| >= 1 && AllNormal(es)
    ensures Join2("/" + JoinSlash(hs), JoinSlash(es)) == "/" + JoinSlash(hs + es)
  {
    var home := "/" + JoinSlash(hs);
    var rel := JoinSlash(es);
    CleanFoldRootParts(hs);
    SplitJoin(es);
    SplitAppend(home, rel);
    assert AllNormal(hs + es);
    CleanFoldConcat([], Split(home), es, true);
    CleanFoldNormal(hs, es, true);
  }

  lemma JoinUnderRootSlashed(hs: seq<string>, es: seq<string>)
    requires AllNormal(hs) && |es| >= 1 && AllNormal(es)
    ensures Join2("/" + JoinSlash(hs), "/" + JoinSlash(es)) == "/" + JoinSlash(hs + es)
  {
    var home := "/" + JoinSlash(hs);
    var rel := JoinSlash(es);
    CleanFoldRootParts(hs);
    SplitRooted(es);
    SplitAppend(home, "/" + rel);
    assert home + "/" + ("/" + rel) == home + "/" + "/" + rel;
    assert AllNormal(hs + es);
    CleanFoldConcat([], Split(home), [""] + es, true);
    CleanFoldConcat(hs, [""], es, true);
    assert CleanFold(hs, [""], true) == hs by {
      assert [""][..0] == [];
    }
    CleanFoldNormal(hs, es, true);
  }
}
