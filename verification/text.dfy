/** The pieces of Go's `strings` and `unicode` packages the core relies on:
    `strings.Split` on a one-character separator, `strings.Fields`,
    `unicode.IsSpace` and `strings.ToLower`. */
module Text {

  /** `unicode.IsSpace`: the Latin-1 spaces plus Unicode's White_Space characters. */
  predicate IsSpace(c: char)
  {
    var u := c as int;
    (0x09 <= u <= 0x0D) || u == 0x20 || u == 0x85 || u == 0xA0 || u == 0x1680
    || (0x2000 <= u <= 0x200A) || u == 0x2028 || u == 0x2029 || u == 0x202F
    || u == 0x205F || u == 0x3000
  }

  predicate NoSpace(s: string)
  {
    forall i :: 0 <= i < |s| ==> !IsSpace(s[i])
  }

  predicate AllSpace(s: string)
  {
    forall i :: 0 <= i < |s| ==> IsSpace(s[i])
  }

  // ---------------------------------------------------------------- Split / Join

  /** `strings.Join(parts, string(sep))`. */
  function Join(parts: seq<string>, sep: char): string
    requires |parts| >= 1
  {
    if |parts| == 1 then parts[0] else parts[0] + [sep] + Join(parts[1..], sep)
  }

  /** `strings.Split(s, string(sep))`: the pieces between consecutive separators. */
  function Split(s: string, sep: char): (parts: seq<string>)
    ensures |parts| >= 1
    ensures forall i :: 0 <= i < |parts| ==> sep !in parts[i]
    ensures Join(parts, sep) == s
  {
    if s == [] then [""]
    else if s[0] == sep then [""] + Split(s[1..], sep)
    else
      var rest := Split(s[1..], sep);
      [[s[0]] + rest[0]] + rest[1..]
  }

  /** A separator-free word is a single piece. */
  lemma {:induction false} SplitAlone(w: string, sep: char)
    requires sep !in w
    ensures Split(w, sep) == [w]
  {
    if w != [] {
      SplitAlone(w[1..], sep);
      var rest := Split(w[1..], sep);
      assert rest[0] == w[1..] && rest[1..] == [];
      assert [w[0]] + w[1..] == w;
    }
  }

  /** A separator-free word followed by more text splits off as one piece. */
  lemma {:induction false} SplitWord(w: string, sep: char, rest: string)
    requires sep !in w
    ensures Split(w + ([sep] + rest), sep) == [w] + Split(rest, sep)
    ensures Split(w, sep) == [w]
  {
    SplitAlone(w, sep);
    var s := w + ([sep] + rest);
    if w == [] {
      assert s == [sep] + rest;
      assert s[0] == sep && s[1..] == rest;
    } else {
      assert s[0] == w[0] && s[0] != sep;
      assert s[1..] == w[1..] + ([sep] + rest);
      SplitWord(w[1..], sep, rest);
      var tail := Split(s[1..], sep);
      assert tail == [w[1..]] + Split(rest, sep);
      assert tail[0] == w[1..] && tail[1..] == Split(rest, sep);
      assert Split(s, sep) == [[s[0]] + tail[0]] + tail[1..];
      assert [w[0]] + w[1..] == w;
    }
  }

  /** Split inverts Join whenever no piece contains the separator. */
  lemma {:induction false} SplitJoin(parts: seq<string>, sep: char)
    requires |parts| >= 1
    requires forall i :: 0 <= i < |parts| ==> sep !in parts[i]
    ensures Split(Join(parts, sep), sep) == parts
  {
    if |parts| == 1 {
      SplitWord(parts[0], sep, "");
    } else {
      SplitJoin(parts[1..], sep);
      SplitWord(parts[0], sep, Join(parts[1..], sep));
      assert Join(parts, sep) == parts[0] + ([sep] + Join(parts[1..], sep));
      assert [parts[0]] + parts[1..] == parts;
    }
  }

  // ---------------------------------------------------------------- Fields

  /** Length of the longest whitespace-free prefix of `s`. */
  function WordLength(s: string): (n: nat)
    ensures n <= |s|
    ensures forall i :: 0 <= i < n ==> !IsSpace(s[i])
    ensures n == |s| || IsSpace(s[n])
  {
    if s == [] || IsSpace(s[0]) then 0 else 1 + WordLength(s[1..])
  }

  /** `strings.Fields`: the maximal runs of non-space characters, in order. */
  function Fields(s: string): (fs: seq<string>)
    ensures forall i :: 0 <= i < |fs| ==> fs[i] != [] && NoSpace(fs[i])
    decreases |s|
  {
    if s == [] then []
    else if IsSpace(s[0]) then Fields(s[1..])
    else
      var n := WordLength(s);
      [s[..n]] + Fields(s[n..])
  }

  /** A string has no fields exactly when it is empty or all whitespace. */
  lemma {:induction false} FieldsEmptyIffAllSpace(s: string)
    ensures Fields(s) == [] <==> AllSpace(s)
    decreases |s|
  {
    if s != [] {
      FieldsEmptyIffAllSpace(s[1..]);
      if IsSpace(s[0]) {
        assert AllSpace(s) <==> AllSpace(s[1..]) by {
          if AllSpace(s[1..]) {
            forall i | 0 <= i < |s| ensures IsSpace(s[i]) {
              if i > 0 { assert s[i] == s[1..][i - 1]; }
            }
          }
        }
      }
    }
  }

  /** Leading whitespace does not change the fields. */
  lemma {:induction false} FieldsSkipSpace(sp: string, s: string)
    requires AllSpace(sp)
    ensures Fields(sp + s) == Fields(s)
  {
    if sp != [] {
      assert (sp + s)[0] == sp[0] && IsSpace(sp[0]);
      assert (sp + s)[1..] == sp[1..] + s;
      assert Fields(sp + s) == Fields(sp[1..] + s);
      FieldsSkipSpace(sp[1..], s);
    } else {
      assert sp + s == s;
    }
  }

  /** A word ending at whitespace (or at the end) is the first field. */
  lemma {:induction false} FieldsWord(w: string, rest: string)
    requires w != [] && NoSpace(w)
    requires rest == [] || IsSpace(rest[0])
    ensures Fields(w + rest) == [w] + Fields(rest)
  {
    WordLengthOf(w, rest);
    assert (w + rest)[..|w|] == w;
    assert (w + rest)[|w|..] == rest;
  }

  lemma {:induction false} WordLengthOf(w: string, rest: string)
    requires NoSpace(w)
    requires rest == [] || IsSpace(rest[0])
    ensures WordLength(w + rest) == |w|
  {
    if w != [] {
      assert (w + rest)[1..] == w[1..] + rest;
      WordLengthOf(w[1..], rest);
    }
  }

  /** `scheme sep token trailing` has `scheme` and `token` as its first two fields. */
  lemma TwoFields(scheme: string, sep: string, token: string, trailing: string)
    requires scheme != [] && NoSpace(scheme)
    requires token != [] && NoSpace(token)
    requires sep != [] && AllSpace(sep)
    requires trailing == [] || IsSpace(trailing[0])
    ensures |Fields(scheme + sep + token + trailing)| >= 2
    ensures Fields(scheme + sep + token + trailing)[0] == scheme
    ensures Fields(scheme + sep + token + trailing)[1] == token
  {
    assert scheme + sep + token + trailing == scheme + (sep + (token + trailing));
    FieldsWord(scheme, sep + (token + trailing));
    FieldsSkipSpace(sep, token + trailing);
    FieldsWord(token, trailing);
  }

  // ---------------------------------------------------------------- ToLower

  /** `unicode.ToLower` restricted to ASCII letters. */
  function LowerChar(c: char): char
  {
    if 'A' <= c <= 'Z' then (c as int + 32) as char else c
  }

  /** `strings.ToLower` on ASCII text. */
  function Lower(s: string): (r: string)
    ensures |r| == |s|
    ensures forall i :: 0 <= i < |s| ==> r[i] == LowerChar(s[i])
  {
    if s == [] then [] else [LowerChar(s[0])] + Lower(s[1..])
  }

  /** A character lower-cases to the lower-case ASCII letter `l` exactly
      when it is `l` or its upper-case partner. */
  lemma LowerCharMatches(c: char, l: char)
    requires 'a' <= l <= 'z'
    ensures LowerChar(c) == l <==> c == l || c as int == l as int - 32
  {
  }

  /** `s` lower-cases to the all-lower-case ASCII word `w` exactly when every
      character of `s` is the matching letter of `w` in either case. */
  lemma LowerMatches(s: string, w: string)
    requires forall i :: 0 <= i < |w| ==> 'a' <= w[i] <= 'z'
    ensures Lower(s) == w <==>
      |s| == |w| && forall i :: 0 <= i < |s| ==> s[i] == w[i] || s[i] as int == w[i] as int - 32
  {
    if |s| == |w| {
      forall i | 0 <= i < |s|
        ensures Lower(s)[i] == w[i] <==> s[i] == w[i] || s[i] as int == w[i] as int - 32
      {
        LowerCharMatches(s[i], w[i]);
      }
    }
  }
}
