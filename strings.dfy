/** The PHP string functions the core relies on: `implode`, `explode` with
    a one-character delimiter, and `trim` with its default character list. */
module Strings {

  /** `implode(sep, parts)`: the parts with `sep` between neighbours. */
  function Implode(sep: string, parts: seq<string>): string
    decreases |parts|
  {
    if |parts| == 0 then ""
    else if |parts| == 1 then parts[0]
    else parts[0] + sep + Implode(sep, parts[1..])
  }

  /** `explode(c, s)`: the pieces of `s` between occurrences of `c`, in
      order; a string without `c` (the empty string included) is one piece. */
  function Explode(c: char, s: string): (pieces: seq<string>)
    ensures |pieces| >= 1
    decreases |s|
  {
    if |s| == 0 then [""]
    else
      var rest := Explode(c, s[1..]);
      if s[0] == c then [""] + rest else [[s[0]] + rest[0]] + rest[1..]
  }

  /** The characters PHP's `trim` strips by default: space, tab, newline,
      carriage return, NUL and vertical tab. */
  predicate IsTrimmable(ch: char)
  {
    ch == ' ' || ch == '\t' || ch == '\n' || ch == '\r' || ch == '\0' || ch == 11 as char
  }

  predicate Trimmed(s: string)
  {
    |s| == 0 || (!IsTrimmable(s[0]) && !IsTrimmable(s[|s| - 1]))
  }

  /** `ltrim`: drops the longest trimmable prefix. */
  function TrimStart(s: string): (r: string)
    ensures |r| <= |s| && r == s[|s| - |r|..]
    ensures forall k :: 0 <= k < |s| - |r| ==> IsTrimmable(s[k])
    ensures |r| > 0 ==> !IsTrimmable(r[0])
    decreases |s|
  {
    if |s| > 0 && IsTrimmable(s[0]) then TrimStart(s[1..]) else s
  }

  /** `rtrim`: drops the longest trimmable suffix. */
  function TrimEnd(s: string): (r: string)
    ensures |r| <= |s| && r == s[..|r|]
    ensures forall k :: |r| <= k < |s| ==> IsTrimmable(s[k])
    ensures |r| > 0 ==> !IsTrimmable(r[|r| - 1])
    decreases |s|
  {
    if |s| > 0 && IsTrimmable(s[|s| - 1]) then TrimEnd(s[..|s| - 1]) else s
  }

  /** `trim`: the result is the slice of `s` left once the trimmable
      characters at both ends are dropped; it has none at either end, and a
      string that already has none is returned unchanged. */
  function Trim(s: string): (r: string)
    ensures Trimmed(r)
    ensures Trimmed(s) ==> r == s
    ensures exists i, j :: 0 <= i <= j <= |s| && r == s[i..j]
                           && forall k :: (0 <= k < i || j <= k < |s|) ==> IsTrimmable(s[k])
    ensures |r| <= |s|
  {
    var a := TrimStart(s);
    var r := TrimEnd(a);
    assert |r| > 0 ==> r[0] == a[0];
    TrimmedSlice(s, a, r);
    r
  }

  /** Dropping a trimmable prefix `s[..|s| - |a|]` and then a trimmable
      suffix of what is left leaves a slice of `s` whose surroundings are all
      trimmable. */
  lemma TrimmedSlice(s: string, a: string, r: string)
    requires |a| <= |s| && a == s[|s| - |a|..]
    requires forall k :: 0 <= k < |s| - |a| ==> IsTrimmable(s[k])
    requires |r| <= |a| && r == a[..|r|]
    requires forall k :: |r| <= k < |a| ==> IsTrimmable(a[k])
    ensures exists i, j :: 0 <= i <= j <= |s| && r == s[i..j]
                           && forall k :: (0 <= k < i || j <= k < |s|) ==> IsTrimmable(s[k])
  {
    var i := |s| - |a|;
    var j := i + |r|;
    forall k | 0 <= k < i || j <= k < |s|
      ensures IsTrimmable(s[k])
    {
      if j <= k {
        assert s[k] == a[k - i];
      }
    }
    assert 0 <= i <= j <= |s| && r == s[i..j];
  }

  /** `array_map('trim', parts)`. */
  function TrimAll(parts: seq<string>): (r: seq<string>)
    ensures |r| == |parts|
    ensures forall i :: 0 <= i < |parts| ==> r[i] == Trim(parts[i])
    decreases |parts|
  {
    if |parts| == 0 then [] else [Trim(parts[0])] + TrimAll(parts[1..])
  }

  /** Gluing a prefix onto the first part glues it onto the whole result. */
  lemma ImplodeExtendHead(sep: string, x: string, parts: seq<string>)
    requires |parts| >= 1
    ensures Implode(sep, [x + parts[0]] + parts[1..]) == x + Implode(sep, parts)
  {
    var ps := [x + parts[0]] + parts[1..];
    if |parts| > 1 {
      assert ps[1..] == parts[1..];
    }
  }

  /** Joining the pieces of `explode` with the delimiter gives back the string. */
  lemma {:induction false} ImplodeExplode(c: char, s: string)
    ensures Implode([c], Explode(c, s)) == s
    decreases |s|
  {
    if |s| > 0 {
      var rest := Explode(c, s[1..]);
      ImplodeExplode(c, s[1..]);
      if s[0] == c {
        assert ([""] + rest)[1..] == rest;
        assert s == [c] + s[1..];
      } else {
        ImplodeExtendHead([c], [s[0]], rest);
        assert s == [s[0]] + s[1..];
      }
    }
  }

  /** No piece of `explode` contains the delimiter. */
  lemma {:induction false} ExplodePiecesFree(c: char, s: string)
    ensures forall i :: 0 <= i < |Explode(c, s)| ==> c !in Explode(c, s)[i]
    decreases |s|
  {
    if |s| > 0 {
      ExplodePiecesFree(c, s[1..]);
    }
  }

  lemma {:induction false} ExplodeFree(c: char, a: string)
    requires c !in a
    ensures Explode(c, a) == [a]
    decreases |a|
  {
    if |a| > 0 {
      ExplodeFree(c, a[1..]);
      assert a == [a[0]] + a[1..];
    }
  }

  lemma {:induction false} ExplodeAppend(c: char, a: string, b: string)
    requires c !in a
    ensures Explode(c, a + [c] + b) == [a] + Explode(c, b)
    decreases |a|
  {
    var s := a + [c] + b;
    if |a| == 0 {
      assert s == [c] + b && s[1..] == b;
    } else {
      assert s[1..] == a[1..] + [c] + b;
      ExplodeAppend(c, a[1..], b);
      assert a == [a[0]] + a[1..];
    }
  }

  /** Splitting a join of delimiter-free parts gives back the parts. */
  lemma {:induction false} ExplodeImplode(c: char, parts: seq<string>)
    requires |parts| >= 1
    requires forall i :: 0 <= i < |parts| ==> c !in parts[i]
    ensures Explode(c, Implode([c], parts)) == parts
    decreases |parts|
  {
    if |parts| == 1 {
      ExplodeFree(c, parts[0]);
    } else {
      ExplodeImplode(c, parts[1..]);
      ExplodeAppend(c, parts[0], Implode([c], parts[1..]));
      assert parts == [parts[0]] + parts[1..];
    }
  }

  /** `trim` is idempotent. */
  lemma TrimIdempotent(s: string)
    ensures Trim(Trim(s)) == Trim(s)
  {
  }
}
