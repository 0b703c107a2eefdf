/**
 * The string operations the components use: `toLowerCase`/`toUpperCase` (over ASCII only),
 * `includes`, `replace` with a string pattern (first occurrence only) and `split`.
 */
module Text {

  function LowerChar(c: char): char {
    if 'A' <= c <= 'Z' then (c as int + 32) as char else c
  }

  function UpperChar(c: char): char {
    if 'a' <= c <= 'z' then (c as int - 32) as char else c
  }

  predicate IsUpperAscii(c: char) { 'A' <= c <= 'Z' }

  predicate IsLowerAscii(c: char) { 'a' <= c <= 'z' }

  /** `s.toLowerCase()` restricted to ASCII letters. */
  function Lower(s: string): (r: string)
    ensures |r| == |s|
    ensures forall i :: 0 <= i < |r| ==> !IsUpperAscii(r[i])
  {
    if s == [] then [] else [LowerChar(s[0])] + Lower(s[1..])
  }

  /** `s.toUpperCase()` restricted to ASCII letters. */
  function Upper(s: string): (r: string)
    ensures |r| == |s|
    ensures forall i :: 0 <= i < |r| ==> !IsLowerAscii(r[i])
  {
    if s == [] then [] else [UpperChar(s[0])] + Upper(s[1..])
  }

  lemma {:induction false} LowerIdempotent(s: string)
    ensures Lower(Lower(s)) == Lower(s)
  {
    if s != [] {
      LowerIdempotent(s[1..]);
    }
  }

  lemma {:induction false} LowerAt(s: string, i: nat)
    requires i < |s|
    ensures Lower(s)[i] == LowerChar(s[i])
  {
    if i > 0 {
      LowerAt(s[1..], i - 1);
    }
  }

  lemma {:induction false} UpperAt(s: string, i: nat)
    requires i < |s|
    ensures Upper(s)[i] == UpperChar(s[i])
  {
    if i > 0 {
      UpperAt(s[1..], i - 1);
    }
  }

  lemma {:induction false} UpperAppend(a: string, b: string)
    ensures Upper(a + b) == Upper(a) + Upper(b)
  {
    if a != [] {
      assert (a + b)[0] == a[0] && (a + b)[1..] == a[1..] + b;
      UpperAppend(a[1..], b);
      assert Upper(a + b) == [UpperChar(a[0])] + Upper(a[1..] + b);
    } else {
      assert a + b == b;
    }
  }

  /** `needle` occurs in `hay` starting at index `i`. */
  predicate OccursAt(hay: string, needle: string, i: int) {
    0 <= i && i + |needle| <= |hay| && hay[i..i + |needle|] == needle
  }

  /** `hay.includes(needle)`. */
  predicate Contains(hay: string, needle: string)
    ensures needle == [] ==> Contains(hay, needle)
    ensures Contains(hay, needle) ==> |needle| <= |hay|
    decreases |hay|
  {
    needle <= hay || (hay != [] && Contains(hay[1..], needle))
  }

  /** An `includes` that holds names an index where the needle occurs. */
  lemma {:induction false} ContainsWitness(hay: string, needle: string) returns (i: int)
    requires Contains(hay, needle)
    ensures OccursAt(hay, needle, i)
    decreases |hay|
  {
    if needle <= hay {
      i := 0;
    } else {
      var j := ContainsWitness(hay[1..], needle);
      assert hay[j + 1..j + 1 + |needle|] == hay[1..][j..j + |needle|];
      i := j + 1;
    }
  }

  /** An occurrence at any index makes `includes` hold. */
  lemma {:induction false} OccursContains(hay: string, needle: string, i: int)
    requires OccursAt(hay, needle, i)
    ensures Contains(hay, needle)
    decreases i
  {
    if i == 0 {
      assert needle == hay[..|needle|];
    } else {
      assert hay[1..][i - 1..i - 1 + |needle|] == hay[i..i + |needle|];
      OccursContains(hay[1..], needle, i - 1);
    }
  }

  /** `includes` holds exactly when the needle occurs at some index. */
  lemma ContainsIffOccurs(hay: string, needle: string)
    ensures Contains(hay, needle) <==> exists i :: OccursAt(hay, needle, i)
  {
    if Contains(hay, needle) {
      var i := ContainsWitness(hay, needle);
    }
    forall i | OccursAt(hay, needle, i) ensures Contains(hay, needle) {
      OccursContains(hay, needle, i);
    }
  }

  /** Every string includes the empty string (an empty search term matches everything). */
  lemma ContainsEmpty(hay: string)
    ensures Contains(hay, "")
  {
  }

  /** The source's case-insensitive search: `field.toLowerCase().includes(term.toLowerCase())`. */
  predicate MatchesIgnoringCase(field: string, term: string) {
    Contains(Lower(field), Lower(term))
  }

  lemma MatchesEmptyTerm(field: string)
    ensures MatchesIgnoringCase(field, "")
  {
    ContainsEmpty(Lower(field));
  }

  /**
   * `s.replace(a, b)` with a one-character string pattern: only the FIRST occurrence of `a`
   * is replaced; a string without `a` is returned unchanged.
   */
  function ReplaceFirst(s: string, a: char, b: char): (r: string)
    ensures |r| == |s|
    ensures a !in s ==> r == s
  {
    if s == [] then []
    else if s[0] == a then [b] + s[1..]
    else [s[0]] + ReplaceFirst(s[1..], a, b)
  }

  /** Replacing the first `a` of `head + [a] + tail`, where `head` holds no `a`, touches only that one. */
  lemma {:induction false} ReplaceFirstAfter(head: string, a: char, b: char, tail: string)
    requires a !in head
    ensures ReplaceFirst(head + [a] + tail, a, b) == head + [b] + tail
  {
    var s := head + [a] + tail;
    if head == [] {
      assert s[0] == a && s[1..] == tail;
    } else {
      assert s[0] == head[0] && s[1..] == head[1..] + [a] + tail;
      ReplaceFirstAfter(head[1..], a, b, tail);
      assert [head[0]] + (head[1..] + [b] + tail) == head + [b] + tail;
    }
  }

  /** `s.split(sep)`: the pieces between separators; the empty string gives `[""]`. */
  function Split(s: string, sep: char): (r: seq<string>)
    ensures |r| >= 1
    ensures forall k :: 0 <= k < |r| ==> sep !in r[k]
  {
    if s == [] then [[]]
    else
      var rest := Split(s[1..], sep);
      if s[0] == sep then [[]] + rest else [[s[0]] + rest[0]] + rest[1..]
  }

  /** `pieces.join(sep)`. */
  function Join(pieces: seq<string>, sep: char): (r: string)
    ensures |pieces| >= 1 ==> pieces[0] <= r
    ensures |pieces| >= 2 ==> |r| > |pieces[0]| && r[|pieces[0]|] == sep
  {
    if pieces == [] then []
    else if |pieces| == 1 then pieces[0]
    else pieces[0] + [sep] + Join(pieces[1..], sep)
  }

  /** Splitting and joining with the same separator gives back the string. */
  lemma {:induction false} JoinSplit(s: string, sep: char)
    ensures Join(Split(s, sep), sep) == s
  {
    if s != [] {
      var rest := Split(s[1..], sep);
      JoinSplit(s[1..], sep);
      if s[0] == sep {
        assert Split(s, sep) == [[]] + rest;
        assert ([[]] + rest)[1..] == rest;
      } else {
        assert Split(s, sep) == [[s[0]] + rest[0]] + rest[1..];
        if |rest| == 1 {
          assert Join(rest, sep) == rest[0];
        } else {
          assert Join(rest, sep) == rest[0] + [sep] + Join(rest[1..], sep);
          assert ([[s[0]] + rest[0]] + rest[1..])[1..] == rest[1..];
        }
      }
    }
  }

  /** No piece of a split contains the separator. */
  lemma {:induction false} SplitPiecesHaveNoSeparator(s: string, sep: char)
    ensures forall i :: 0 <= i < |Split(s, sep)| ==> sep !in Split(s, sep)[i]
  {
    if s != [] {
      SplitPiecesHaveNoSeparator(s[1..], sep);
    }
  }
}
