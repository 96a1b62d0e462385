/**
 * The `secure[data]` string of the Direct protocol: `http_build_query` over the
 * data array, followed by `str_replace(['%5B', '%5D'], ['[', ']'], ...)`.
 */
module QueryString {
  import opened Php

  // ---------------------------------------------------------------------------
  // urlencode (RFC 1738 style, as http_build_query uses by default)
  // ---------------------------------------------------------------------------

  predicate Unreserved(c: char) {
    'a' <= c <= 'z' || 'A' <= c <= 'Z' || '0' <= c <= '9' || c == '-' || c == '_' || c == '.'
  }

  function HexUpper(d: nat): char
    requires d < 16
  {
    "0123456789ABCDEF"[d]
  }

  /** One character of `urlencode`: kept, '+' for a space, or `%XX` with upper-case hex. */
  function EscapeChar(c: char): (r: string)
    ensures |r| > 0 && r[0] != '&'
    ensures Unreserved(c) ==> r == [c]
  {
    if Unreserved(c) then [c]
    else if c == ' ' then "+"
    else if (c as int) < 256 then ['%', HexUpper(c as int / 16), HexUpper(c as int % 16)]
    else [c]
  }

  function UrlEncode(s: string): (r: string)
    ensures |r| >= |s|
    ensures (forall j :: 0 <= j < |s| ==> Unreserved(s[j])) ==> r == s
  {
    if s == [] then [] else EscapeChar(s[0]) + UrlEncode(s[1..])
  }

  /** How a key is printed: integers in decimal, strings url-encoded. */
  function KeyText(k: Key): string {
    match k
    case Index(n) => IntToDecimal(n)
    case Name(s) => UrlEncode(s)
  }

  /**
   * The `name=value` pairs of the entries of `owner` from position `i` on, in order;
   * nested keys become `outer%5Binner%5D`, nulls are skipped.
   */
  function EntriesParts(owner: Value, i: nat, prefix: string, nested: bool): seq<string>
    requires owner.Arr? && i <= |owner.entries|
    decreases owner, 0, |owner.entries| - i
  {
    if i == |owner.entries| then []
    else
      var (k, v) := owner.entries[i];
      var name := if nested then prefix + "%5B" + KeyText(k) + "%5D" else KeyText(k);
      ValueParts(v, name) + EntriesParts(owner, i + 1, prefix, nested)
  }

  function ValueParts(v: Value, name: string): seq<string>
    decreases v, 1, 0
  {
    match v
    case Null => []
    case Bool(b) => [name + "=" + (if b then "1" else "0")]
    case Int(i) => [name + "=" + IntToDecimal(i)]
    case Str(s) => [name + "=" + UrlEncode(s)]
    case Arr(_) => EntriesParts(v, 0, name, true)
  }

  /** The pairs `http_build_query` produces for a top-level array. */
  function Pairs(data: seq<(Key, Value)>): seq<string> {
    EntriesParts(Arr(data), 0, "", false)
  }

  /** The pairs joined by the argument separator. */
  function Join(parts: seq<string>, sep: string): string {
    if parts == [] then ""
    else if |parts| == 1 then parts[0]
    else parts[0] + sep + Join(parts[1..], sep)
  }

  // ---------------------------------------------------------------------------
  // str_replace
  // ---------------------------------------------------------------------------

  predicate StartsWith(t: string, q: string) {
    |q| <= |t| && t[..|q|] == q
  }

  /** `q` occurs nowhere in `t`. */
  predicate Free(t: string, q: string) {
    forall j :: 0 <= j < |t| ==> !StartsWith(t[j..], q)
  }

  /** `str_replace($p, $r, $s)`: every occurrence, scanning left to right, without overlaps. */
  function ReplaceAll(s: string, p: string, r: string): string
    requires |p| > 0
    decreases |s|
  {
    if |s| < |p| then s
    else if s[..|p|] == p then r + ReplaceAll(s[|p|..], p, r)
    else [s[0]] + ReplaceAll(s[1..], p, r)
  }

  /** The bracket fix-up: "%5B" becomes '[' and then "%5D" becomes ']'. */
  function Fixup(s: string): string {
    ReplaceAll(ReplaceAll(s, "%5B", "["), "%5D", "]")
  }

  /** `http_build_query($data, '', $sep)` followed by the bracket fix-up. */
  function DataString(data: seq<(Key, Value)>, sep: string): string {
    Fixup(Join(Pairs(data), sep))
  }

  /** Each pair with its brackets fixed up. */
  function FixupEach(parts: seq<string>): (r: seq<string>)
    ensures |r| == |parts|
  {
    if parts == [] then [] else [Fixup(parts[0])] + FixupEach(parts[1..])
  }

  // ---------------------------------------------------------------------------
  // Properties
  // ---------------------------------------------------------------------------

  /** Text that starts with `w` after the replacement already started with it, when `w` avoids `r[0]`. */
  lemma {:induction false} StartsWithBeforeReplace(s: string, p: string, r: string, w: string)
    requires |p| > 0 && |r| > 0 && r[0] !in w
    requires StartsWith(ReplaceAll(s, p, r), w)
    ensures StartsWith(s, w)
    decreases |s|
  {
    if w != [] && |s| >= |p| {
      assert w[0] in w;
      ReplaceAllHead(s, p, r);
      if s[..|p|] != p {
        var t := ReplaceAll(s[1..], p, r);
        assert ReplaceAll(s, p, r) == [s[0]] + t;
        assert StartsWith(t, w[1..]);
        StartsWithBeforeReplace(s[1..], p, r, w[1..]);
        assert s == [s[0]] + s[1..];
      }
    }
  }

  lemma ReplaceAllHead(s: string, p: string, r: string)
    requires 0 < |p| <= |s| && |r| > 0
    ensures ReplaceAll(s, p, r)[0] == if s[..|p|] == p then r[0] else s[0]
  {
  }

  /**
   * After replacing `p` by `r`, the text contains no `p`, nor any `q` the input lacked,
   * provided no character of `r` occurs in `q`.
   */
  lemma {:induction false} ReplaceAllFree(s: string, p: string, r: string, q: string)
    requires |p| > 0 && |r| > 0 && |q| > 0
    requires forall j :: 0 <= j < |r| ==> r[j] !in q
    requires q == p || Free(s, q)
    ensures Free(ReplaceAll(s, p, r), q)
    decreases |s|
  {
    var out := ReplaceAll(s, p, r);
    if |s| < |p| {
      forall j | 0 <= j < |s| ensures !StartsWith(s[j..], q) {
        if q != p {
          assert !StartsWith(s[j..], q);
        }
      }
    } else if s[..|p|] == p {
      var rest := s[|p|..];
      if q != p {
        forall j | 0 <= j < |rest| ensures !StartsWith(rest[j..], q) {
          assert rest[j..] == s[j + |p|..];
        }
      }
      ReplaceAllFree(rest, p, r, q);
      var x := ReplaceAll(rest, p, r);
      assert out == r + x;
      forall j | 0 <= j < |out| ensures !StartsWith(out[j..], q) {
        if j < |r| {
          assert out[j] == r[j] && r[j] !in q;
          assert q[0] in q;
        } else {
          assert out[j..] == x[j - |r|..];
        }
      }
    } else {
      if q != p {
        forall j | 0 <= j < |s[1..]| ensures !StartsWith(s[1..][j..], q) {
          assert s[1..][j..] == s[j + 1..];
        }
      }
      ReplaceAllFree(s[1..], p, r, q);
      var x := ReplaceAll(s[1..], p, r);
      assert out == [s[0]] + x;
      StartsWithAfterStep(s, p, r, q);
      assert s[0..] == s;
      forall j | 0 <= j < |out| ensures !StartsWith(out[j..], q) {
        if j > 0 {
          assert out[j..] == x[j - 1..];
        }
      }
    }
  }

  /** One step of the scan that keeps `s[0]`: a `q` at the front of the output was at the front of the input. */
  lemma StartsWithAfterStep(s: string, p: string, r: string, q: string)
    requires |p| > 0 && |r| > 0 && |q| > 0
    requires forall j :: 0 <= j < |r| ==> r[j] !in q
    requires |s| >= |p| && s[..|p|] != p
    ensures StartsWith(ReplaceAll(s, p, r), q) ==> StartsWith(s, q)
  {
    var x := ReplaceAll(s[1..], p, r);
    assert ReplaceAll(s, p, r) == [s[0]] + x;
    if StartsWith([s[0]] + x, q) && |q| > 1 {
      assert StartsWith(x, q[1..]);
      assert forall i :: 0 <= i < |q[1..]| ==> q[1..][i] in q;
      StartsWithBeforeReplace(s[1..], p, r, q[1..]);
      assert s[..|q|] == [s[0]] + s[1..][..|q| - 1];
    }
  }

  /** The fixed-up data string never contains "%5B" or "%5D". */
  lemma FixupRemovesEscapedBrackets(s: string)
    ensures Free(Fixup(s), "%5B") && Free(Fixup(s), "%5D")
  {
    var t := ReplaceAll(s, "%5B", "[");
    ReplaceAllFree(s, "%5B", "[", "%5B");
    ReplaceAllFree(t, "%5D", "]", "%5D");
    ReplaceAllFree(t, "%5D", "]", "%5B");
  }

  /** Text without the pattern's first character is left unchanged. */
  lemma {:induction false} ReplaceAllAbsent(s: string, p: string, r: string)
    requires |p| > 0 && p[0] !in s
    ensures ReplaceAll(s, p, r) == s
    decreases |s|
  {
    if |s| >= |p| {
      assert s[0] != p[0];
      ReplaceAllAbsent(s[1..], p, r);
      assert s == [s[0]] + s[1..];
    }
  }

  /** No occurrence of `p` straddles the boundary between `a` and `c`. */
  predicate NoStraddle(a: string, c: string, p: string) {
    a == [] || c == [] || a[|a| - 1] !in p || c[0] !in p
  }

  /** Replacement distributes over a concatenation that no occurrence straddles. */
  lemma {:induction false} ReplaceAllConcat(a: string, c: string, p: string, r: string)
    requires |p| > 0
    requires NoStraddle(a, c, p)
    ensures ReplaceAll(a + c, p, r) == ReplaceAll(a, p, r) + ReplaceAll(c, p, r)
    decreases |a|
  {
    if a == [] {
      assert a + c == c;
    } else if |a| >= |p| {
      assert (a + c)[..|p|] == a[..|p|];
      if a[..|p|] == p {
        assert (a + c)[|p|..] == a[|p|..] + c;
        ReplaceAllConcat(a[|p|..], c, p, r);
      } else {
        assert (a + c)[1..] == a[1..] + c;
        ReplaceAllConcat(a[1..], c, p, r);
      }
    } else if |a + c| >= |p| {
      ShortPrefixNoMatch(a, c, p);
      assert (a + c)[1..] == a[1..] + c;
      ReplaceAllConcat(a[1..], c, p, r);
      assert a == [a[0]] + a[1..];
    }
  }

  /** A non-empty text shorter than the pattern cannot start a match that no straddle allows. */
  lemma ShortPrefixNoMatch(a: string, c: string, p: string)
    requires 0 < |a| < |p| <= |a + c|
    requires NoStraddle(a, c, p)
    ensures (a + c)[..|p|] != p
  {
    assert (a + c)[|a| - 1] == a[|a| - 1];
    assert (a + c)[|a|] == c[0];
    assert p[|a| - 1] in p && p[|a|] in p;
  }

  /** Replacement commutes with joining, for a separator that shares no character with the pattern. */
  lemma {:induction false} ReplaceAllJoin(parts: seq<string>, sep: string, p: string, r: string)
    requires |p| > 0 && |sep| > 0
    requires forall j :: 0 <= j < |sep| ==> sep[j] !in p
    ensures ReplaceAll(Join(parts, sep), p, r) == Join(MapReplace(parts, p, r), sep)
    decreases |parts|
  {
    if |parts| > 1 {
      var rest := Join(parts[1..], sep);
      ReplaceAllJoin(parts[1..], sep, p, r);
      ReplaceAllConcat(parts[0], sep + rest, p, r);
      ReplaceAllConcat(sep, rest, p, r);
      ReplaceAllAbsent(sep, p, r);
      assert parts[0] + sep + rest == parts[0] + (sep + rest);
    }
  }

  function MapReplace(parts: seq<string>, p: string, r: string): (rs: seq<string>)
    requires |p| > 0
    ensures |rs| == |parts|
  {
    if parts == [] then [] else [ReplaceAll(parts[0], p, r)] + MapReplace(parts[1..], p, r)
  }

  lemma {:induction false} MapReplaceTwice(parts: seq<string>)
    ensures MapReplace(MapReplace(parts, "%5B", "["), "%5D", "]") == FixupEach(parts)
    decreases |parts|
  {
    if parts != [] {
      MapReplaceTwice(parts[1..]);
    }
  }

  /**
   * The data string is the fixed-up pairs joined by the separator: the `&` form
   * that is signed and the `&amp;` form that is posted carry the same pairs in the
   * same order and differ only in the separator.
   */
  lemma DataStringIsJoinOfPairs(data: seq<(Key, Value)>, sep: string)
    requires sep == "&" || sep == "&amp;"
    ensures DataString(data, sep) == Join(FixupEach(Pairs(data)), sep)
  {
    var parts := Pairs(data);
    ReplaceAllJoin(parts, sep, "%5B", "[");
    ReplaceAllJoin(MapReplace(parts, "%5B", "["), sep, "%5D", "]");
    MapReplaceTwice(parts);
  }

  /** The example of the bracket fix-up: `['a' => ['b' => '1']]` becomes `a[b]=1`. */
  lemma NestedKeyExample()
    ensures DataString([(Name("a"), Arr([(Name("b"), Str("1"))]))], "&") == "a[b]=1"
  {
    NestedKeyPairs();
    assert Join(["a%5Bb%5D=1"], "&") == "a%5Bb%5D=1";
    NestedKeyFixup();
  }

  lemma NestedKeyPairs()
    ensures Pairs([(Name("a"), Arr([(Name("b"), Str("1"))]))]) == ["a%5Bb%5D=1"]
  {
    var inner: seq<(Key, Value)> := [(Name("b"), Str("1"))];
    var outer: seq<(Key, Value)> := [(Name("a"), Arr(inner))];
    assert UrlEncode("a") == "a";
    assert UrlEncode("b") == "b";
    assert UrlEncode("1") == "1";
    assert KeyText(Name("b")) == "b";
    assert KeyText(Name("a")) == "a";
    assert "a%5Bb%5D" + "=" + "1" == "a%5Bb%5D=1";
    assert ValueParts(Str("1"), "a%5Bb%5D") == ["a%5Bb%5D=1"];
    assert "a" + "%5B" + "b" + "%5D" == "a%5Bb%5D";
    assert EntriesParts(Arr(inner), 0, "a", true) == ["a%5Bb%5D=1"] + EntriesParts(Arr(inner), 1, "a", true);
    assert ValueParts(Arr(inner), "a") == ["a%5Bb%5D=1"];
    assert Pairs(outer) == ["a%5Bb%5D=1"] + EntriesParts(Arr(outer), 1, "", false);
  }

  lemma NestedKeyFixup()
    ensures Fixup("a%5Bb%5D=1") == "a[b]=1"
  {
    NestedKeyOpenBracket();
    NestedKeyCloseBracket();
  }

  lemma NestedKeyOpenBracket()
    ensures ReplaceAll("a%5Bb%5D=1", "%5B", "[") == "a[b%5D=1"
  {
    assert ReplaceAll("=1", "%5B", "[") == "=1";
    assert ReplaceAll("D=1", "%5B", "[") == "D=1";
    assert ReplaceAll("5D=1", "%5B", "[") == "5D=1";
    assert "%5D=1"[..3] == "%5D" != "%5B";
    assert ReplaceAll("%5D=1", "%5B", "[") == "%5D=1";
    assert ReplaceAll("b%5D=1", "%5B", "[") == "b%5D=1";
    assert ReplaceAll("%5Bb%5D=1", "%5B", "[") == "[b%5D=1";
  }

  lemma NestedKeyCloseBracket()
    ensures ReplaceAll("a[b%5D=1", "%5D", "]") == "a[b]=1"
  {
    assert ReplaceAll("=1", "%5D", "]") == "=1";
    assert ReplaceAll("%5D=1", "%5D", "]") == "]=1";
    assert ReplaceAll("b%5D=1", "%5D", "]") == "b]=1";
    assert ReplaceAll("[b%5D=1", "%5D", "]") == "[b]=1";
  }
}
