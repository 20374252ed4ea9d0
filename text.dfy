/**
 * The JavaScript string operations the import screen and the in-memory table
 * rely on: `split` on one character, `join`, `trim`, `includes`,
 * `toLowerCase`, `<` on strings, `padStart` and `toFixed(2)`.
 */
module Text {
  import opened Money

  /** `s.split(sep)` for a one-character separator: always at least one field. */
  function Split(s: string, sep: char): (r: seq<string>)
    ensures |r| >= 1
  {
    if s == [] then [""]
    else
      var rest := Split(s[1..], sep);
      if s[0] == sep then [""] + rest else [[s[0]] + rest[0]] + rest[1..]
  }

  /** `fields.join(sep)`. */
  function Join(fields: seq<string>, sep: char): string
  {
    if fields == [] then ""
    else if |fields| == 1 then fields[0]
    else fields[0] + [sep] + Join(fields[1..], sep)
  }

  /** Number of occurrences of c in s. */
  function Occurrences(s: string, c: char): nat
  {
    if s == [] then 0 else (if s[0] == c then 1 else 0) + Occurrences(s[1..], c)
  }

  /** Joining the fields of a split gives back the original text. */
  lemma {:induction false} JoinSplit(s: string, sep: char)
    ensures Join(Split(s, sep), sep) == s
  {
    if s != [] {
      JoinSplit(s[1..], sep);
      var rest := Split(s[1..], sep);
      if s[0] == sep {
        assert Split(s, sep) == [""] + rest;
        assert ([""] + rest)[1..] == rest;
      } else {
        var r := Split(s, sep);
        assert r[0] == [s[0]] + rest[0] && r[1..] == rest[1..];
        if |rest| == 1 {
          assert Join(r, sep) == [s[0]] + rest[0];
        } else {
          assert Join(r, sep) == [s[0]] + rest[0] + [sep] + Join(rest[1..], sep);
          assert Join(rest, sep) == rest[0] + [sep] + Join(rest[1..], sep);
        }
      }
    }
  }

  /** A split yields one more field than there are separators, and no field holds the separator. */
  lemma {:induction false} SplitFields(s: string, sep: char)
    ensures |Split(s, sep)| == Occurrences(s, sep) + 1
    ensures forall k :: 0 <= k < |Split(s, sep)| ==> sep !in Split(s, sep)[k]
  {
    if s != [] {
      SplitFields(s[1..], sep);
    }
  }

  /** Splitting a join of separator-free fields gives back the fields. */
  lemma {:induction false} SplitJoin(fields: seq<string>, sep: char)
    requires |fields| >= 1
    requires forall k :: 0 <= k < |fields| ==> sep !in fields[k]
    ensures Split(Join(fields, sep), sep) == fields
    decreases |fields|, |fields[0]|
  {
    var f := fields[0];
    if f == [] {
      if |fields| > 1 {
        SplitJoin(fields[1..], sep);
        assert Join(fields, sep) == [sep] + Join(fields[1..], sep);
        assert ([sep] + Join(fields[1..], sep))[1..] == Join(fields[1..], sep);
        assert [""] + fields[1..] == fields;
      }
    } else {
      var shorter := [f[1..]] + fields[1..];
      SplitJoin(shorter, sep);
      var j := Join(fields, sep);
      assert j == [f[0]] + Join(shorter, sep) by {
        if |fields| > 1 {
          assert Join(shorter, sep) == f[1..] + [sep] + Join(fields[1..], sep);
        }
      }
      assert j[1..] == Join(shorter, sep);
      assert [f[0]] + f[1..] == f;
      assert [f] + fields[1..] == fields;
    }
  }

  /** The characters JavaScript's `trim` removes: WhiteSpace and LineTerminator. */
  predicate IsSpace(c: char)
  {
    var n := c as int;
    || 9 <= n <= 13 || n == 0x20 || n == 0xA0 || n == 0x1680 || 0x2000 <= n <= 0x200A
    || n == 0x2028 || n == 0x2029 || n == 0x202F || n == 0x205F || n == 0x3000 || n == 0xFEFF
  }

  function TrimStart(s: string): (r: string)
    ensures |r| <= |s|
    ensures r == s[|s| - |r|..]
    ensures r == [] || !IsSpace(r[0])
    ensures forall i :: 0 <= i < |s| - |r| ==> IsSpace(s[i])
  {
    if s != [] && IsSpace(s[0]) then TrimStart(s[1..]) else s
  }

  function TrimEnd(s: string): (r: string)
    ensures |r| <= |s|
    ensures r == s[..|r|]
    ensures r == [] || !IsSpace(r[|r| - 1])
    ensures forall i :: |r| <= i < |s| ==> IsSpace(s[i])
  {
    if s != [] && IsSpace(s[|s| - 1]) then TrimEnd(s[..|s| - 1]) else s
  }

  /** `s.trim()`: s without its leading and trailing white space. */
  function Trim(s: string): (r: string)
  {
    TrimEnd(TrimStart(s))
  }

  /** Where `trim` starts: the number of leading space characters. */
  function TrimOffset(s: string): nat
  {
    |s| - |TrimStart(s)|
  }

  /** The trimmed text is a slice of the original bounded by non-space characters, and only space was cut off. */
  lemma TrimSlice(s: string)
    ensures TrimOffset(s) + |Trim(s)| <= |s|
    ensures Trim(s) == s[TrimOffset(s)..TrimOffset(s) + |Trim(s)|]
    ensures forall k :: 0 <= k < TrimOffset(s) ==> IsSpace(s[k])
    ensures forall k :: TrimOffset(s) + |Trim(s)| <= k < |s| ==> IsSpace(s[k])
    ensures Trim(s) == [] || (!IsSpace(Trim(s)[0]) && !IsSpace(Trim(s)[|Trim(s)| - 1]))
  {
    var t := TrimStart(s);
    var r := TrimEnd(t);
    SliceOfSuffix(s, t, r);
    forall k | |s| - |t| + |r| <= k < |s| ensures IsSpace(s[k]) {
      assert s[k] == t[k - (|s| - |t|)];
    }
    if r != [] {
      assert r[0] == t[0];
    }
  }

  /** A prefix of a suffix is a slice. */
  lemma SliceOfSuffix(s: string, t: string, r: string)
    requires |t| <= |s| && t == s[|s| - |t|..]
    requires |r| <= |t| && r == t[..|r|]
    ensures r == s[|s| - |t|..|s| - |t| + |r|]
  {
  }

  /** A line counts as blank for `filter(l => l.trim())` exactly when every character is space. */
  lemma TrimEmptyIffBlank(s: string)
    ensures Trim(s) == [] <==> forall k :: 0 <= k < |s| ==> IsSpace(s[k])
  {
    TrimSlice(s);
    if Trim(s) != [] {
      assert !IsSpace(s[TrimOffset(s)]);
    }
  }

  predicate StartsWith(s: string, prefix: string)
  {
    |prefix| <= |s| && s[..|prefix|] == prefix
  }

  /** `s.includes(sub)`. */
  predicate Contains(s: string, sub: string)
    decreases |s|
  {
    StartsWith(s, sub) || (s != [] && Contains(s[1..], sub))
  }

  predicate OccursAt(s: string, sub: string, i: nat)
  {
    i + |sub| <= |s| && s[i..i + |sub|] == sub
  }

  /** `includes` holds exactly when sub occurs at some position of s. */
  lemma {:induction false} ContainsIffOccurs(s: string, sub: string)
    ensures Contains(s, sub) <==> exists i: nat :: OccursAt(s, sub, i)
    decreases |s|
  {
    if s != [] {
      ContainsIffOccurs(s[1..], sub);
      if exists i: nat :: OccursAt(s, sub, i) {
        var i: nat :| OccursAt(s, sub, i);
        if i > 0 {
          assert s[1..][i - 1..i - 1 + |sub|] == s[i..i + |sub|];
          assert OccursAt(s[1..], sub, i - 1);
        } else {
          assert StartsWith(s, sub);
        }
      }
      if Contains(s[1..], sub) && !StartsWith(s, sub) {
        var i: nat :| OccursAt(s[1..], sub, i);
        assert s[i + 1..i + 1 + |sub|] == s[1..][i..i + |sub|];
        assert OccursAt(s, sub, i + 1);
      }
      if StartsWith(s, sub) {
        assert OccursAt(s, sub, 0);
      }
    } else if sub == [] {
      assert OccursAt(s, sub, 0);
    }
  }

  /** The prefix of s up to (not including) the first c; all of s when c does not occur. */
  function Before(s: string, c: char): (r: string)
    ensures StartsWith(s, r) && c !in r
    ensures |r| < |s| ==> s[|r|] == c
  {
    if s == [] || s[0] == c then [] else [s[0]] + Before(s[1..], c)
  }

  /** `s.split(c)[0]` is the text up to the first c. */
  lemma {:induction false} SplitFirst(s: string, c: char)
    ensures Split(s, c)[0] == Before(s, c)
  {
    if s != [] && s[0] != c {
      SplitFirst(s[1..], c);
    }
  }

  /** ASCII `toLowerCase`. */
  function Lower(s: string): (r: string)
    ensures |r| == |s|
    ensures forall i :: 0 <= i < |s| ==> r[i] == LowerChar(s[i])
  {
    if s == [] then [] else [LowerChar(s[0])] + Lower(s[1..])
  }

  function LowerChar(c: char): char
  {
    if 'A' <= c <= 'Z' then (c as int - 'A' as int + 'a' as int) as char else c
  }

  /** JavaScript's `a < b` on strings: lexicographic order of the characters. */
  predicate Less(a: string, b: string)
  {
    if b == [] then false
    else if a == [] then true
    else if a[0] != b[0] then a[0] < b[0]
    else Less(a[1..], b[1..])
  }

  lemma {:induction false} LessIrreflexive(a: string)
    ensures !Less(a, a)
  {
    if a != [] {
      LessIrreflexive(a[1..]);
    }
  }

  lemma {:induction false} LessTrichotomy(a: string, b: string)
    ensures Less(a, b) || Less(b, a) || a == b
    ensures !(Less(a, b) && Less(b, a))
  {
    if a != [] && b != [] && a[0] == b[0] {
      LessTrichotomy(a[1..], b[1..]);
      if a[1..] == b[1..] {
        assert a == [a[0]] + a[1..] && b == [b[0]] + b[1..];
      }
    }
  }

  lemma {:induction false} LessTransitive(a: string, b: string, c: string)
    requires Less(a, b) && Less(b, c)
    ensures Less(a, c)
  {
    if a != [] && a[0] == b[0] && b[0] == c[0] {
      LessTransitive(a[1..], b[1..], c[1..]);
    }
  }

  /** Decimal digits of n, as `String(n)` writes a whole number. */
  function NatText(n: nat): (r: string)
    ensures |r| >= 1
    ensures forall i :: 0 <= i < |r| ==> '0' <= r[i] <= '9'
    decreases n
  {
    if n < 10 then [Digit(n)] else NatText(n / 10) + [Digit(n % 10)]
  }

  function Digit(d: nat): (c: char)
    requires d < 10
    ensures '0' <= c <= '9'
  {
    ('0' as int + d) as char
  }

  /** `s.padStart(2, '0')`. */
  function PadStart2(s: string): (r: string)
    ensures |s| >= 2 ==> r == s
    ensures |s| < 2 ==> |r| == 2 && r[2 - |s|..] == s && forall i :: 0 <= i < 2 - |s| ==> r[i] == '0'
  {
    if |s| >= 2 then s else if |s| == 1 then "0" + s else "00"
  }

  /** `x.toFixed(2)`: the sign, then the amount rounded to cents (halves away from zero), with two decimals. */
  function Fixed2(x: real): (r: string)
  {
    var cents := (Abs(x) * 100.0 + 0.5).Floor;
    (if x < 0.0 then "-" else "") + NatText(cents / 100) + "." + [Digit(cents % 100 / 10), Digit(cents % 10)]
  }

  /** `s.replace(/[...]/g, '')`: s without any character of cs. */
  function RemoveAll(s: string, cs: set<char>): (r: string)
    ensures |r| <= |s|
    ensures forall i :: 0 <= i < |r| ==> r[i] !in cs
  {
    if s == [] then [] else (if s[0] in cs then [] else [s[0]]) + RemoveAll(s[1..], cs)
  }

  /** Case-insensitive (ASCII) test that s starts with the lower-case word w. */
  predicate StartsWithWordCI(s: string, w: string)
  {
    |w| <= |s| && Lower(s[..|w|]) == w
  }

  /** Index of the first c in s; |s| when there is none. */
  function IndexOf(s: string, c: char): (i: nat)
    ensures i <= |s|
    ensures i < |s| ==> s[i] == c
    ensures forall k :: 0 <= k < i ==> s[k] != c
  {
    if s == [] || s[0] == c then 0 else 1 + IndexOf(s[1..], c)
  }

  /** `s.replace(/<!DOCTYPE[^>]*>/gi, '')`: every `<!doctype` (any case) up to and including the next `>` is removed. */
  function StripDoctype(s: string): (r: string)
    ensures |r| <= |s|
    decreases |s|
  {
    if s == [] then []
    else if StartsWithWordCI(s, "<!doctype") && IndexOf(s[9..], '>') < |s| - 9 then
      StripDoctype(s[9 + IndexOf(s[9..], '>') + 1..])
    else [s[0]] + StripDoctype(s[1..])
  }

  /** Text without a `<` holds no doctype and is left unchanged. */
  lemma {:induction false} StripDoctypeNoTag(s: string)
    requires '<' !in s
    ensures StripDoctype(s) == s
  {
    if s != [] {
      assert s[0] != '<';
      assert !StartsWithWordCI(s, "<!doctype") by {
        if |s| >= 9 {
          assert Lower(s[..9])[0] == LowerChar(s[0]) != '<';
        }
      }
      StripDoctypeNoTag(s[1..]);
      assert [s[0]] + s[1..] == s;
    }
  }
}
