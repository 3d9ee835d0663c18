/**
 * The pieces of JavaScript's String and Array semantics that the dashboard's
 * cookie parser relies on: `startsWith`, `split` with a non-empty string
 * separator, and `Array.prototype.find` on a row list. `Contains` states that
 * a piece holds no separator, and `Join` is how the browser serialises
 * `document.cookie` from its rows.
 */
module JsStrings {

  /** `undefined` versus a value. */
  datatype Option<+T> = None | Some(value: T) {
    function GetOr(default: T): T {
      match this
      case Some(v) => v
      case None => default
    }
  }

  /** `s.startsWith(prefix)` */
  predicate StartsWith(s: string, prefix: string) {
    |prefix| <= |s| && s[..|prefix|] == prefix
  }

  /** Some position of `s` starts an occurrence of `pat`. */
  predicate Contains(s: string, pat: string)
    decreases |s|
  {
    if |s| < |pat| then false else StartsWith(s, pat) || Contains(s[1..], pat)
  }

  /**
   * No proper suffix of `sep` is also a prefix of it, so two occurrences of
   * `sep` can never overlap ("; " and "=" both qualify).
   */
  predicate Borderless(sep: string) {
    forall k :: 0 < k < |sep| ==> sep[k..] != sep[..|sep| - k]
  }

  /**
   * `s.split(sep)` for a non-empty separator: the text is cut at every
   * occurrence of `sep`, scanning left to right, and the occurrences themselves
   * are dropped. There is always at least one piece (`"".split(sep)` is `[""]`).
   */
  function Split(s: string, sep: string): (parts: seq<string>)
    requires |sep| > 0
    ensures |parts| >= 1
    decreases |s|
  {
    if |s| < |sep| then [s]
    else if StartsWith(s, sep) then [""] + Split(s[|sep|..], sep)
    else
      var rest := Split(s[1..], sep);
      [[s[0]] + rest[0]] + rest[1..]
  }

  /** The pieces with `sep` between consecutive ones, as `document.cookie` is serialised. */
  function Join(parts: seq<string>, sep: string): string
    decreases |parts|
  {
    if parts == [] then ""
    else if |parts| == 1 then parts[0]
    else parts[0] + sep + Join(parts[1..], sep)
  }

  /**
   * `rows.find(row => row.startsWith(prefix))`, represented by the index of the
   * row `find` returns, with `None` for `undefined`: the FIRST row carrying the
   * prefix, or none when no row does.
   */
  function FindWithPrefix(rows: seq<string>, prefix: string): (r: Option<nat>)
    ensures r.Some? ==> r.value < |rows| && StartsWith(rows[r.value], prefix)
    ensures r.Some? ==> forall j :: 0 <= j < r.value ==> !StartsWith(rows[j], prefix)
    ensures r.None? ==> forall j :: 0 <= j < |rows| ==> !StartsWith(rows[j], prefix)
    decreases |rows|
  {
    if rows == [] then None
    else if StartsWith(rows[0], prefix) then Some(0)
    else
      match FindWithPrefix(rows[1..], prefix)
      case None => None
      case Some(i) => Some(i + 1)
  }

  /** A one-character pattern occurs exactly when the character is a member. */
  lemma {:induction false} ContainsChar(s: string, c: char)
    ensures Contains(s, [c]) <==> c in s
    decreases |s|
  {
    if |s| >= 1 {
      ContainsChar(s[1..], c);
      assert s == [s[0]] + s[1..];
    }
  }

  /** Joining the pieces of a split gives back the original text. */
  lemma {:induction false} JoinSplit(s: string, sep: string)
    requires |sep| > 0
    ensures Join(Split(s, sep), sep) == s
    decreases |s|
  {
    if |s| < |sep| {
    } else if StartsWith(s, sep) {
      var tail := s[|sep|..];
      JoinSplit(tail, sep);
      assert s == sep + tail;
      assert Split(s, sep) == [""] + Split(tail, sep);
      assert Join(Split(s, sep), sep) == "" + sep + Join(Split(tail, sep), sep);
    } else {
      var rest := Split(s[1..], sep);
      JoinSplit(s[1..], sep);
      assert s == [s[0]] + s[1..];
      var parts := Split(s, sep);
      assert parts == [[s[0]] + rest[0]] + rest[1..];
      if |rest| == 1 {
        assert Join(parts, sep) == [s[0]] + rest[0];
      } else {
        assert Join(rest, sep) == rest[0] + sep + Join(rest[1..], sep);
        assert parts[1..] == rest[1..];
        assert Join(parts, sep) == ([s[0]] + rest[0]) + sep + Join(rest[1..], sep);
      }
    }
  }

  /**
   * The first piece of a split is the longest prefix of the text that holds
   * no separator: it is a prefix, it holds no separator, and it ends either
   * at the end of the text or where a separator starts.
   */
  lemma {:induction false} SplitHead(s: string, sep: string)
    requires |sep| > 0
    ensures StartsWith(s, Split(s, sep)[0])
    ensures !Contains(Split(s, sep)[0], sep)
    ensures Split(s, sep)[0] == s || StartsWith(s[|Split(s, sep)[0]|..], sep)
    decreases |s|
  {
    var h := Split(s, sep)[0];
    if |s| < |sep| {
    } else if StartsWith(s, sep) {
      assert h == "";
      assert s[|h|..] == s;
    } else {
      var rest := Split(s[1..], sep);
      SplitHead(s[1..], sep);
      var h' := rest[0];
      assert h == [s[0]] + h';
      assert s == [s[0]] + s[1..];
      assert s[|h|..] == s[1..][|h'|..];
      assert h[1..] == h';
    }
  }

  /** A text holding no separator splits into itself alone. */
  lemma {:induction false} SplitFree(s: string, sep: string)
    requires |sep| > 0
    requires !Contains(s, sep)
    ensures Split(s, sep) == [s]
    decreases |s|
  {
    if |s| >= |sep| {
      SplitFree(s[1..], sep);
      assert s == [s[0]] + s[1..];
    }
  }

  /**
   * A separator-free piece followed by a separator is split off whole,
   * provided separators cannot overlap.
   */
  lemma {:induction false} SplitAfterFree(r: string, sep: string, rest: string)
    requires |sep| > 0 && Borderless(sep)
    requires !Contains(r, sep)
    ensures Split(r + sep + rest, sep) == [r] + Split(rest, sep)
    decreases |r|
  {
    var s := r + sep + rest;
    if r == [] {
      assert s == sep + rest;
      assert StartsWith(s, sep);
      assert s[|sep|..] == rest;
    } else {
      assert |s| >= |sep|;
      assert !StartsWith(s, sep) by {
        if |r| >= |sep| {
          assert s[..|sep|] == r[..|sep|];
        } else {
          OverlapIsBorder(r, sep, rest);
        }
      }
      assert !StartsWith(r, sep) && |r| >= |sep| ==> !Contains(r[1..], sep);
      assert !Contains(r[1..], sep);
      SplitAfterFree(r[1..], sep, rest);
      assert s[1..] == r[1..] + sep + rest;
      assert r == [r[0]] + r[1..];
    }
  }

  /**
   * An occurrence of `sep` starting inside a shorter piece `r` and running into
   * the `sep` that follows `r` would make a proper suffix of `sep` a prefix of it.
   */
  lemma OverlapIsBorder(r: string, sep: string, rest: string)
    requires 0 < |r| < |sep|
    ensures StartsWith(r + sep + rest, sep) ==> sep[|r|..] == sep[..|sep| - |r|]
  {
    var s := r + sep + rest;
    var k := |r|;
    assert s[..|sep|] == r + sep[..|sep| - k];
    if StartsWith(s, sep) {
      assert sep[k..] == s[k..|sep|] == sep[..|sep| - k];
    }
  }

  /** Splitting a join of separator-free pieces gives the pieces back. */
  lemma {:induction false} SplitJoin(rows: seq<string>, sep: string)
    requires |sep| > 0 && Borderless(sep)
    requires |rows| >= 1
    requires forall j :: 0 <= j < |rows| ==> !Contains(rows[j], sep)
    ensures Split(Join(rows, sep), sep) == rows
    decreases |rows|
  {
    if |rows| == 1 {
      SplitFree(rows[0], sep);
    } else {
      SplitJoin(rows[1..], sep);
      SplitAfterFree(rows[0], sep, Join(rows[1..], sep));
      assert rows == [rows[0]] + rows[1..];
    }
  }
}
